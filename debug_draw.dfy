/** DebugDraw.cpp: lines, arrows, rectangles and point marks drawn as stretched quads of a 1x1
    white texture through a batch renderer of its own. Every shape is a list of strokes; a stroke
    is one BatchQuad call with no source rectangle and the Normal UV mode. */
module DebugDrawing {
  import opened Wrappers
  import opened Graphics
  import opened UVModes
  import opened BatchGeometry
  import opened BatchRendering

  /** The 1x1 white texture every debug shape samples. */
  const WhitePixel: Texture := TextureInfo(Default, 1, 1, 0)

  /** MathConstants::Pi (MathConstants.hpp is not part of this model; its float value is approximated). */
  const Pi: real := 3.14159265358979

  /** DrawArrow's default head, from DebugDraw.hpp: 15 units long, 25 degrees off the shaft. */
  const DefaultArrowHeadLength: real := 15.0
  const DefaultArrowHeadAngle: real := 25.0 * Pi / 180.0

  /** The factor DrawPoint uses for half the diagonal of a unit square. */
  const HalfDiagonal: real := 0.7071

  /** Strokes anchored at the middle of their left edge, as lines are. */
  const LineOrigin := Vec2(0.0, 0.5)

  /** Strokes anchored at their centre, as filled rectangles are. */
  const CentreOrigin := Vec2(0.5, 0.5)

  /** One BatchQuad request of the white texture. */
  datatype Stroke = Stroke(position: Vec2, rotation: real, scale: Vec2, origin: Vec2, color: Color)

  /** A line from one point to another. */
  datatype Segment = Segment(from: Vec2, to: Vec2)

  function Plus(a: Vec2, b: Vec2): Vec2 { Vec2(a.x + b.x, a.y + b.y) }

  function Minus(a: Vec2, b: Vec2): Vec2 { Vec2(a.x - b.x, a.y - b.y) }

  /** The four vertices BatchQuad builds for a stroke. */
  function StrokeCorners(trig: Trig, s: Stroke): (r: seq<Vertex>)
    ensures |r| == 4
  {
    TexturedCorners(WhitePixel, Option.None, s.position, trig.sin(s.rotation), trig.cos(s.rotation),
      s.scale, s.origin, Normal, s.color)
  }

  /** The six vertices BatchQuad stores for a stroke. */
  function StrokeQuad(trig: Trig, s: Stroke): seq<Vertex>
  {
    QuadVertices(StrokeCorners(trig, s))
  }

  /** The vertex stream a list of strokes adds to the batch, in order. */
  function StrokesVertices(trig: Trig, strokes: seq<Stroke>): seq<Vertex>
  {
    if strokes == [] then [] else StrokesVertices(trig, strokes[..|strokes| - 1]) + StrokeQuad(trig, strokes[|strokes| - 1])
  }

  lemma StrokesVerticesStep(trig: Trig, strokes: seq<Stroke>, k: nat)
    requires k < |strokes|
    ensures StrokesVertices(trig, strokes[..k + 1]) == StrokesVertices(trig, strokes[..k]) + StrokeQuad(trig, strokes[k])
  {
    assert strokes[..k + 1][..k] == strokes[..k];
  }

  /** Drawing the next stroke of a list extends the stream by that stroke's quad. */
  lemma StrokesExtended(trig: Trig, before: seq<Vertex>, strokes: seq<Stroke>, k: nat)
    requires k < |strokes|
    ensures (before + StrokesVertices(trig, strokes[..k])) + StrokeQuad(trig, strokes[k])
         == before + StrokesVertices(trig, strokes[..k + 1])
  {
    StrokesVerticesStep(trig, strokes, k);
  }

  lemma NoStrokeDrawnYet(trig: Trig, before: seq<Vertex>, strokes: seq<Stroke>)
    ensures before + StrokesVertices(trig, strokes[..0]) == before
  {
    assert strokes[..0] == [];
  }

  lemma AllStrokesDrawn(trig: Trig, before: seq<Vertex>, strokes: seq<Stroke>)
    ensures before + StrokesVertices(trig, strokes[..|strokes|]) == before + StrokesVertices(trig, strokes)
  {
    assert strokes[..|strokes|] == strokes;
  }

  /** glm::normalize; a zero vector, which the float code turns into NaNs, is kept as it is. */
  function Normalize(d: Vec2, length: real): Vec2
  {
    if length == 0.0 then d else Vec2(d.x / length, d.y / length)
  }

  /** The stroke DrawLine emits: anchored at `start`, as long as the line, as wide as `thickness`,
      rotated to the line's direction. */
  function LineStroke(trig: Trig, start: Vec2, end: Vec2, color: Color, thickness: real): Stroke
  {
    var difference := Minus(end, start);
    var length := trig.sqrt(difference.x * difference.x + difference.y * difference.y);
    var direction := Normalize(difference, length);
    Stroke(start, trig.atan2(direction.y, direction.x), Vec2(length, thickness), LineOrigin, color)
  }

  /** The point a polyline reaches `points[i]` from: the previous point, or the last one for i == 0. */
  function Previous(points: seq<Vec2>, i: nat): Vec2
    requires 0 < |points| && i < |points|
  {
    if i == 0 then points[|points| - 1] else points[i - 1]
  }

  /** The first point DrawLineList draws to: 0 for a closed shape, 1 otherwise. */
  function FirstTarget(closeShape: bool): nat
  {
    if closeShape then 0 else 1
  }

  /** The segments DrawLineList draws, in order, each shifted by `offset`. */
  function Segments(points: seq<Vec2>, offset: Vec2, closeShape: bool): (r: seq<Segment>)
    requires |points| > 0
    ensures |r| == |points| - FirstTarget(closeShape)
  {
    var first := FirstTarget(closeShape);
    seq(|points| - first, k requires 0 <= k < |points| - first =>
      Segment(Plus(Previous(points, first + k), offset), Plus(points[first + k], offset)))
  }

  lemma SegmentAt(points: seq<Vec2>, offset: Vec2, closeShape: bool, k: nat)
    requires |points| > 0 && k < |points| - FirstTarget(closeShape)
    ensures Segments(points, offset, closeShape)[k]
      == Segment(Plus(Previous(points, FirstTarget(closeShape) + k), offset), Plus(points[FirstTarget(closeShape) + k], offset))
  {
  }

  /** A closed shape has one segment per point, an open one a segment fewer; consecutive segments
      join up, an open polyline runs from the first point to the last, and a closed one ends where
      it starts. */
  lemma SegmentsChain(points: seq<Vec2>, offset: Vec2, closeShape: bool)
    requires |points| > 0
    ensures var s := Segments(points, offset, closeShape);
      && |s| == (if closeShape then |points| else |points| - 1)
      && (forall k | 0 <= k < |s| - 1 :: s[k].to == s[k + 1].from)
      && (closeShape ==> s[|s| - 1].to == s[0].from)
      && (!closeShape && |points| > 1 ==> s[0].from == Plus(points[0], offset) && s[|s| - 1].to == Plus(points[|points| - 1], offset))
      && (forall k | 0 <= k < |s| :: s[k].to == Plus(points[k + FirstTarget(closeShape)], offset))
  {
    var s := Segments(points, offset, closeShape);
    var first := FirstTarget(closeShape);
    forall k | 0 <= k < |s|
      ensures s[k] == Segment(Plus(Previous(points, first + k), offset), Plus(points[first + k], offset))
    {
    }
    forall k | 0 <= k < |s| - 1
      ensures s[k].to == s[k + 1].from
    {
      assert Previous(points, first + k + 1) == points[first + k];
    }
  }

  function LineStrokes(trig: Trig, segments: seq<Segment>, color: Color, thickness: real): (r: seq<Stroke>)
    ensures |r| == |segments|
  {
    seq(|segments|, k requires 0 <= k < |segments| => LineStroke(trig, segments[k].from, segments[k].to, color, thickness))
  }

  /** The vertices of the first `n` lines of a DrawLineList call. */
  ghost function DrawnLines(trig: Trig, shape: seq<Vec2>, offset: Vec2, closeShape: bool, color: Color, thickness: real, n: nat): seq<Vertex>
    requires |shape| > 0 && n <= |shape| - FirstTarget(closeShape)
  {
    StrokesVertices(trig, LineStrokes(trig, Segments(shape, offset, closeShape), color, thickness)[..n])
  }

  lemma AllLinesDrawn(trig: Trig, shape: seq<Vec2>, offset: Vec2, closeShape: bool, color: Color, thickness: real)
    requires |shape| > 0
    ensures DrawnLines(trig, shape, offset, closeShape, color, thickness, |shape| - FirstTarget(closeShape))
      == StrokesVertices(trig, LineStrokes(trig, Segments(shape, offset, closeShape), color, thickness))
  {
    var strokes := LineStrokes(trig, Segments(shape, offset, closeShape), color, thickness);
    assert strokes[..|strokes|] == strokes;
  }

  /** DrawArrow: the shaft, then the two sides of the head, both starting at `end` and turned back
      by `arrowHeadAngle` either side of the reversed direction. */
  function ArrowStrokes(shaft: Stroke, end: Vec2, color: Color, thickness: real,
                        arrowHeadLength: real, arrowHeadAngle: real): (r: seq<Stroke>)
    ensures |r| == 3
  {
    [shaft,
     Stroke(end, shaft.rotation + (Pi - arrowHeadAngle), Vec2(arrowHeadLength, thickness), LineOrigin, color),
     Stroke(end, shaft.rotation + (Pi + arrowHeadAngle), Vec2(arrowHeadLength, thickness), LineOrigin, color)]
  }

  /** The outline of the axis-aligned rectangle centred on `position`, clockwise from the top-left corner. */
  function RectangleSegments(position: Vec2, dimensions: Vec2): (r: seq<Segment>)
    ensures |r| == 4
  {
    var topLeft := Vec2(position.x - dimensions.x / 2.0, position.y - dimensions.y / 2.0);
    var topRight := Vec2(position.x + dimensions.x / 2.0, position.y - dimensions.y / 2.0);
    var bottomRight := Vec2(position.x + dimensions.x / 2.0, position.y + dimensions.y / 2.0);
    var bottomLeft := Vec2(position.x - dimensions.x / 2.0, position.y + dimensions.y / 2.0);
    [Segment(topLeft, topRight), Segment(topRight, bottomRight), Segment(bottomRight, bottomLeft), Segment(bottomLeft, topLeft)]
  }

  /** The rectangle outline is the closed polyline through its corners: the same segments in the
      same order as a closed line list starting at the top-right corner. */
  lemma RectangleIsClosedOutline(position: Vec2, dimensions: Vec2)
    ensures var r := RectangleSegments(position, dimensions);
      RectangleSegments(position, dimensions) == Segments([r[0].to, r[1].to, r[2].to, r[3].to], Vec2(0.0, 0.0), true)
  {
    var r := RectangleSegments(position, dimensions);
    var corners := [r[0].to, r[1].to, r[2].to, r[3].to];
    var zero := Vec2(0.0, 0.0);
    var s := Segments(corners, zero, true);
    forall k | 0 <= k < 4
      ensures s[k] == Segment(Plus(Previous(corners, k), zero), Plus(corners[k], zero))
    {
      assert FirstTarget(true) == 0;
    }
    assert Previous(corners, 0) == r[3].to;
  }

  /** DrawPoint: a horizontal, a vertical and two diagonal strokes of length `size`. */
  function PointStrokes(position: Vec2, color: Color, size: real, thickness: real): (r: seq<Stroke>)
    ensures |r| == 4
  {
    var length := HalfDiagonal * size / 2.0;
    [Stroke(Plus(position, Vec2(-size / 2.0, 0.0)), 0.0, Vec2(size, thickness), LineOrigin, color),
     Stroke(Plus(position, Vec2(0.0, -size / 2.0)), Pi / 2.0, Vec2(size, thickness), LineOrigin, color),
     Stroke(Plus(position, Vec2(-length, -length)), Pi / 4.0, Vec2(size, thickness), LineOrigin, color),
     Stroke(Plus(position, Vec2(-length, length)), -Pi / 4.0, Vec2(size, thickness), LineOrigin, color)]
  }

  /** The corner positions of a stroke, before the texture coordinates are attached. */
  lemma StrokeGeometry(trig: Trig, s: Stroke)
    ensures var c := StrokeCorners(trig, s);
      var q := QuadCorners(s.position, trig.sin(s.rotation), trig.cos(s.rotation), s.scale.x, s.scale.y, s.origin);
      forall k | 0 <= k < 4 :: c[k].x == q[k].x && c[k].y == q[k].y && c[k].color == s.color
  {
    var source := SourceOf(WhitePixel, Option.None);
    assert source == Rectangle(0, 0, 1, 1);
    assert s.scale.x * source.width as real == s.scale.x && s.scale.y * source.height as real == s.scale.y;
  }

  /** The white texture is sampled at its own corners, in the Normal order, so every vertex of every
      stroke lies on the texture and is drawn white times the stroke's colour. */
  lemma StrokeSamplesWholePixel(trig: Trig, s: Stroke)
    ensures var c := StrokeCorners(trig, s);
      && c[0].u == 0.0 && c[0].v == 0.0 && c[1].u == 1.0 && c[1].v == 0.0
      && c[2].u == 1.0 && c[2].v == 1.0 && c[3].u == 0.0 && c[3].v == 1.0
      && forall k | 0 <= k < 4 :: c[k].color == s.color
  {
    NormalCorners(Rectangle(0, 0, 1, 1));
  }

  /** The edges of a quad anchored like a line (origin (0, 0.5)): the near edge 0-3 is centred on
      the position, the far edge 1-2 on the point `w` along the rotated x axis, and the centre lies
      half-way between. */
  lemma LineQuadEdges(p: Vec2, sin: real, cos: real, w: real, h: real)
    ensures var q := QuadCorners(p, sin, cos, w, h, LineOrigin);
      && q[0].x + q[3].x == 2.0 * p.x && q[0].y + q[3].y == 2.0 * p.y
      && q[1].x + q[2].x == 2.0 * (w * cos) + 2.0 * p.x && q[1].y + q[2].y == 2.0 * (w * sin) + 2.0 * p.y
      && q[0].x + q[2].x == w * cos + 2.0 * p.x && q[0].y + q[2].y == w * sin + 2.0 * p.y
  {
  }

  /** The edge from corner 0 to corner 3 is the rotated vertical side, `h` long. */
  lemma QuadSideEdge(p: Vec2, sin: real, cos: real, w: real, h: real, origin: Vec2)
    ensures var q := QuadCorners(p, sin, cos, w, h, origin);
      q[3].x - q[0].x == -(h * sin) && q[3].y - q[0].y == h * cos
  {
  }

  /** Rotation keeps lengths when the sine and cosine lie on the unit circle. */
  lemma RotatedLength(h: real, sin: real, cos: real)
    requires sin * sin + cos * cos == 1.0
    ensures -(h * sin) * -(h * sin) + (h * cos) * (h * cos) == h * h
  {
    calc {
      -(h * sin) * -(h * sin) + (h * cos) * (h * cos);
      { assert -(h * sin) * -(h * sin) == h * h * (sin * sin);
        assert (h * cos) * (h * cos) == h * h * (cos * cos); }
      h * h * (sin * sin + cos * cos);
    }
  }

  /** A stroke with the line origin is anchored at its position: its two near corners straddle it. */
  lemma LineStrokeAnchoredAtPosition(trig: Trig, s: Stroke)
    requires s.origin == LineOrigin
    ensures var c := StrokeCorners(trig, s);
      c[0].x + c[3].x == 2.0 * s.position.x && c[0].y + c[3].y == 2.0 * s.position.y
  {
    StrokeGeometry(trig, s);
    LineQuadEdges(s.position, trig.sin(s.rotation), trig.cos(s.rotation), s.scale.x, s.scale.y);
  }

  /** The library functions are exact for the line from `start` to `end`: the length is positive and
      the computed angle points along the line. */
  ghost predicate ExactAlong(trig: Trig, start: Vec2, end: Vec2)
  {
    var s := LineStroke(trig, start, end, Color(0.0, 0.0, 0.0, 0.0), 0.0);
    && s.scale.x > 0.0
    && trig.cos(s.rotation) * s.scale.x == end.x - start.x
    && trig.sin(s.rotation) * s.scale.x == end.y - start.y
  }

  /** With exact library functions, the line's stroke runs from `start` to `end`: the middles of its
      two short edges are the end points. */
  lemma LineStrokeSpansSegment(trig: Trig, start: Vec2, end: Vec2, color: Color, thickness: real)
    requires ExactAlong(trig, start, end)
    ensures var c := StrokeCorners(trig, LineStroke(trig, start, end, color, thickness));
      && c[0].x + c[3].x == 2.0 * start.x && c[0].y + c[3].y == 2.0 * start.y
      && c[1].x + c[2].x == 2.0 * end.x && c[1].y + c[2].y == 2.0 * end.y
  {
    var s := LineStroke(trig, start, end, color, thickness);
    var probe := LineStroke(trig, start, end, Color(0.0, 0.0, 0.0, 0.0), 0.0);
    assert s.rotation == probe.rotation && s.scale.x == probe.scale.x && s.position == start && s.origin == LineOrigin;
    StrokeGeometry(trig, s);
    LineQuadEdges(start, trig.sin(s.rotation), trig.cos(s.rotation), s.scale.x, s.scale.y);
  }

  /** The library's sine and cosine lie on the unit circle at this angle. */
  ghost predicate OnUnitCircle(trig: Trig, angle: real)
  {
    trig.sin(angle) * trig.sin(angle) + trig.cos(angle) * trig.cos(angle) == 1.0
  }

  /** The squared distance between a stroke's corners 0 and 3, which is its drawn width. */
  function WidthSquared(c: seq<Vertex>): real
    requires |c| == 4
  {
    (c[3].x - c[0].x) * (c[3].x - c[0].x) + (c[3].y - c[0].y) * (c[3].y - c[0].y)
  }

  /** A stroke is drawn as wide as its vertical scale. */
  lemma StrokeWidth(trig: Trig, s: Stroke)
    requires OnUnitCircle(trig, s.rotation)
    ensures WidthSquared(StrokeCorners(trig, s)) == s.scale.y * s.scale.y
  {
    var sin, cos, h := trig.sin(s.rotation), trig.cos(s.rotation), s.scale.y;
    StrokeGeometry(trig, s);
    QuadSideEdge(s.position, sin, cos, s.scale.x, h, s.origin);
    RotatedLength(h, sin, cos);
  }

  /** Strokes of one thickness are all drawn that wide. */
  lemma StrokesWidth(trig: Trig, strokes: seq<Stroke>, thickness: real)
    requires forall k | 0 <= k < |strokes| :: strokes[k].scale.y == thickness && OnUnitCircle(trig, strokes[k].rotation)
    ensures forall k | 0 <= k < |strokes| :: WidthSquared(StrokeCorners(trig, strokes[k])) == thickness * thickness
  {
    forall k | 0 <= k < |strokes|
      ensures WidthSquared(StrokeCorners(trig, strokes[k])) == thickness * thickness
    {
      StrokeWidth(trig, strokes[k]);
    }
  }

  /** As written, DrawRectangle's four lines are one unit wide whatever thickness is asked for. */
  lemma RectangleIgnoresThickness(trig: Trig, position: Vec2, dimensions: Vec2, color: Color)
    requires var sides := RectangleSegments(position, dimensions);
      forall k | 0 <= k < 4 :: OnUnitCircle(trig, LineStroke(trig, sides[k].from, sides[k].to, color, 1.0).rotation)
    ensures var sides := RectangleSegments(position, dimensions);
      forall k | 0 <= k < 4 :: WidthSquared(StrokeCorners(trig, LineStrokes(trig, sides, color, 1.0)[k])) == 1.0
  {
    StrokesWidth(trig, LineStrokes(trig, RectangleSegments(position, dimensions), color, 1.0), 1.0);
  }

  /** Passing the thickness through, each of the four lines is as wide as asked. */
  lemma RectangleHonoursThickness(trig: Trig, position: Vec2, dimensions: Vec2, color: Color, thickness: real)
    requires var sides := RectangleSegments(position, dimensions);
      forall k | 0 <= k < 4 :: OnUnitCircle(trig, LineStroke(trig, sides[k].from, sides[k].to, color, thickness).rotation)
    ensures var sides := RectangleSegments(position, dimensions);
      forall k | 0 <= k < 4 :: WidthSquared(StrokeCorners(trig, LineStrokes(trig, sides, color, thickness)[k])) == thickness * thickness
  {
    StrokesWidth(trig, LineStrokes(trig, RectangleSegments(position, dimensions), color, thickness), thickness);
  }

  /** A filled rectangle is centred on its position and, unrotated, is the axis-aligned box of the
      given dimensions around it. */
  lemma FilledRectangleIsCentred(trig: Trig, position: Vec2, dimensions: Vec2, rotation: real, color: Color)
    ensures var c := StrokeCorners(trig, Stroke(position, rotation, dimensions, CentreOrigin, color));
      c[0].x + c[2].x == 2.0 * position.x && c[0].y + c[2].y == 2.0 * position.y
    ensures trig.sin(rotation) == 0.0 && trig.cos(rotation) == 1.0 ==>
      var c := StrokeCorners(trig, Stroke(position, rotation, dimensions, CentreOrigin, color));
      && c[0].x == position.x - dimensions.x / 2.0 && c[0].y == position.y - dimensions.y / 2.0
      && c[2].x == position.x + dimensions.x / 2.0 && c[2].y == position.y + dimensions.y / 2.0
  {
    var s := Stroke(position, rotation, dimensions, CentreOrigin, color);
    StrokeGeometry(trig, s);
    if trig.sin(rotation) == 0.0 && trig.cos(rotation) == 1.0 {
      UnrotatedQuadIsBox(position, dimensions.x, dimensions.y, CentreOrigin);
    }
  }

  /** With the library's values at 0, a right angle and the two diagonals (taking 0.7071 for their
      sine and cosine), the four strokes of a point mark all cross at the point itself. */
  lemma PointMarkIsCentred(trig: Trig, position: Vec2, color: Color, size: real, thickness: real)
    requires trig.sin(0.0) == 0.0 && trig.cos(0.0) == 1.0
    requires trig.sin(Pi / 2.0) == 1.0 && trig.cos(Pi / 2.0) == 0.0
    requires trig.sin(Pi / 4.0) == HalfDiagonal && trig.cos(Pi / 4.0) == HalfDiagonal
    requires trig.sin(-Pi / 4.0) == -HalfDiagonal && trig.cos(-Pi / 4.0) == HalfDiagonal
    ensures forall k | 0 <= k < 4 ::
      var c := StrokeCorners(trig, PointStrokes(position, color, size, thickness)[k]);
      c[0].x + c[2].x == 2.0 * position.x && c[0].y + c[2].y == 2.0 * position.y
  {
    var strokes := PointStrokes(position, color, size, thickness);
    LineStrokeCentre(trig, strokes[0]);
    LineStrokeCentre(trig, strokes[1]);
    LineStrokeCentre(trig, strokes[2]);
    LineStrokeCentre(trig, strokes[3]);
  }

  /** A stroke anchored like a line is centred half its length along its direction from its position. */
  lemma LineStrokeCentre(trig: Trig, s: Stroke)
    requires s.origin == LineOrigin
    ensures var c := StrokeCorners(trig, s);
      && c[0].x + c[2].x == s.scale.x * trig.cos(s.rotation) + 2.0 * s.position.x
      && c[0].y + c[2].y == s.scale.x * trig.sin(s.rotation) + 2.0 * s.position.y
  {
    StrokeGeometry(trig, s);
    LineQuadEdges(s.position, trig.sin(s.rotation), trig.cos(s.rotation), s.scale.x, s.scale.y);
  }

  class DebugDraw {
    const renderer: BatchRenderer
    var transformMatrix: Matrix
    var beginCalled: bool

    /** The renderer is the one built for 1000 triangles, and `beginCalled` tracks its open batch,
        which always draws the white texture with alpha blending. */
    ghost predicate Valid()
      reads this, renderer, renderer.vertices, renderer.device
    {
      && renderer.Valid()
      && renderer.maximumVertices == 3 * 1000
      && beginCalled == renderer.batchStarted
      && (beginCalled ==> renderer.texture == Some(WhitePixel) && renderer.blendMode == Alpha)
    }

    /** The constructor: a renderer for 1000 triangles on `device`, the identity transform, no frame open. */
    constructor(device: GraphicsDevice, trig: Trig, defaultShaderProgram: ShaderId)
      requires device.Valid()
      ensures Valid() && fresh(renderer) && fresh(renderer.vertices)
      ensures renderer.device == device && renderer.trig == trig
      ensures transformMatrix == Identity && !beginCalled && renderer.Submitted() == []
    {
      renderer := new BatchRenderer(device, trig, 1000, defaultShaderProgram);
      transformMatrix := Identity;
      beginCalled := false;
    }

    method SetTransform(transform: Matrix)
      modifies this
      ensures transformMatrix == transform && beginCalled == old(beginCalled)
    {
      transformMatrix := transform;
    }

    /** Opens the renderer's batch with alpha blending, the white texture, the default shader and
        the current transform; fails (the renderer's `throw`) when a frame is already open. */
    method BeginFrame() returns (outcome: Outcome)
      requires Valid()
      modifies this, renderer
      ensures Valid() && beginCalled
      ensures outcome == Fail <==> old(beginCalled)
      ensures outcome == Ok ==> renderer.transformMatrix == transformMatrix && renderer.activeVertices == 0
      ensures renderer.Submitted() == old(renderer.Submitted()) && transformMatrix == old(transformMatrix)
    {
      outcome := renderer.Begin(Alpha, Some(WhitePixel), Option.None, transformMatrix);
      if outcome == Fail {
        return;
      }
      beginCalled := true;
    }

    /** Closes the frame, flushing what was drawn; fails (the renderer's `throw`) when none is open. */
    method EndFrame() returns (outcome: Outcome)
      requires Valid()
      requires beginCalled ==> renderer.activeVertices > 0
      modifies this, renderer, renderer.device
      ensures Valid() && !beginCalled
      ensures outcome == Fail <==> !old(beginCalled)
      ensures outcome == Ok ==> renderer.batches == old(renderer.batches) + [old(renderer.Pending())]
      ensures renderer.Submitted() == old(renderer.Submitted())
    {
      outcome := renderer.End();
      beginCalled := false;
    }

    /** One BatchQuad call of the white texture. */
    method DrawStroke(s: Stroke)
      requires Valid() && beginCalled
      modifies renderer, renderer.vertices, renderer.device
      ensures Valid() && beginCalled
      ensures renderer.Submitted() == old(renderer.Submitted()) + StrokeQuad(renderer.trig, s)
    {
      var _ := renderer.BatchQuad(Option.None, s.position, s.rotation, s.scale, s.origin, Normal, s.color);
    }

    method DrawLine(start: Vec2, end: Vec2, color: Color, thickness: real)
      requires Valid() && beginCalled
      modifies renderer, renderer.vertices, renderer.device
      ensures Valid() && beginCalled
      ensures renderer.Submitted() == old(renderer.Submitted()) + StrokeQuad(renderer.trig, LineStroke(renderer.trig, start, end, color, thickness))
    {
      DrawStroke(LineStroke(renderer.trig, start, end, color, thickness));
    }

    /** Draws the polyline through `points[..pointCount]`, shifted by `offset`, closing it back to
        the first point when `closeShape` is set. */
    method DrawLineList(points: seq<Vec2>, pointCount: nat, offset: Vec2, closeShape: bool, color: Color, thickness: real)
      requires Valid() && beginCalled
      requires 0 < pointCount <= |points|
      modifies renderer, renderer.vertices, renderer.device
      ensures Valid() && beginCalled
      ensures renderer.Submitted() == old(renderer.Submitted())
        + StrokesVertices(renderer.trig, LineStrokes(renderer.trig, Segments(points[..pointCount], offset, closeShape), color, thickness))
    {
      ghost var before := renderer.Submitted();
      var shape := points[..pointCount];
      var lastPoint: Vec2;
      var startPoint: nat;
      if closeShape {
        lastPoint := points[pointCount - 1];
        startPoint := 0;
      } else {
        lastPoint := points[0];
        startPoint := 1;
      }

      var i := startPoint;
      while i < pointCount
        invariant startPoint <= i <= pointCount && startPoint == FirstTarget(closeShape)
        invariant i < pointCount ==> lastPoint == Previous(shape, i)
        invariant Valid() && beginCalled
        invariant renderer.Submitted() == before + DrawnLines(renderer.trig, shape, offset, closeShape, color, thickness, i - FirstTarget(closeShape))
      {
        i, lastPoint := DrawSegmentTo(shape, offset, closeShape, color, thickness, i, lastPoint, before);
      }
      AllLinesDrawn(renderer.trig, shape, offset, closeShape, color, thickness);
    }

    /** One pass of the DrawLineList loop: the line from `lastPoint` to point `i`, both shifted by `offset`;
        point `i` becomes the last point. */
    method DrawSegmentTo(shape: seq<Vec2>, offset: Vec2, closeShape: bool, color: Color, thickness: real,
                         i: nat, lastPoint: Vec2, ghost before: seq<Vertex>) returns (next: nat, nextLast: Vec2)
      requires Valid() && beginCalled
      requires FirstTarget(closeShape) <= i < |shape| && lastPoint == Previous(shape, i)
      requires renderer.Submitted() == before + DrawnLines(renderer.trig, shape, offset, closeShape, color, thickness, i - FirstTarget(closeShape))
      modifies renderer, renderer.vertices, renderer.device
      ensures Valid() && beginCalled
      ensures next == i + 1 && (next < |shape| ==> nextLast == Previous(shape, next))
      ensures renderer.Submitted() == before + DrawnLines(renderer.trig, shape, offset, closeShape, color, thickness, next - FirstTarget(closeShape))
    {
      ghost var k := i - FirstTarget(closeShape);
      ghost var strokes := LineStrokes(renderer.trig, Segments(shape, offset, closeShape), color, thickness);
      SegmentAt(shape, offset, closeShape, k);
      DrawSide(Segment(Plus(lastPoint, offset), Plus(shape[i], offset)), color, thickness, before, strokes, k);
      next, nextLast := i + 1, shape[i];
    }

    method DrawArrow(start: Vec2, end: Vec2, color: Color, thickness: real, arrowHeadLength: real, arrowHeadAngle: real)
      requires Valid() && beginCalled
      modifies renderer, renderer.vertices, renderer.device
      ensures Valid() && beginCalled
      ensures renderer.Submitted() == old(renderer.Submitted())
        + StrokesVertices(renderer.trig, ArrowStrokes(LineStroke(renderer.trig, start, end, color, thickness), end, color, thickness, arrowHeadLength, arrowHeadAngle))
    {
      ghost var before := renderer.Submitted();
      var shaft := LineStroke(renderer.trig, start, end, color, thickness);
      var strokes := ArrowStrokes(shaft, end, color, thickness, arrowHeadLength, arrowHeadAngle);
      NoStrokeDrawnYet(renderer.trig, before, strokes);
      DrawNext(before, strokes, 0);
      DrawNext(before, strokes, 1);
      DrawNext(before, strokes, 2);
      AllStrokesDrawn(renderer.trig, before, strokes);
    }

    /** Draws `strokes[k]` and `strokes[k + 1]` when the first k strokes of the list have been drawn since `before`. */
    method DrawPair(ghost before: seq<Vertex>, strokes: seq<Stroke>, k: nat)
      requires Valid() && beginCalled
      requires k + 1 < |strokes|
      requires renderer.Submitted() == before + StrokesVertices(renderer.trig, strokes[..k])
      modifies renderer, renderer.vertices, renderer.device
      ensures Valid() && beginCalled
      ensures renderer.Submitted() == before + StrokesVertices(renderer.trig, strokes[..k + 2])
    {
      DrawNext(before, strokes, k);
      DrawNext(before, strokes, k + 1);
    }

    /** Draws `strokes[k]` when the first k strokes of the list have been drawn since `before`. */
    method DrawNext(ghost before: seq<Vertex>, strokes: seq<Stroke>, k: nat)
      requires Valid() && beginCalled
      requires k < |strokes|
      requires renderer.Submitted() == before + StrokesVertices(renderer.trig, strokes[..k])
      modifies renderer, renderer.vertices, renderer.device
      ensures Valid() && beginCalled
      ensures renderer.Submitted() == before + StrokesVertices(renderer.trig, strokes[..k + 1])
    {
      DrawStroke(strokes[k]);
      StrokesExtended(renderer.trig, before, strokes, k);
    }

    method DrawFilledRectangle(position: Vec2, dimensions: Vec2, rotation: real, color: Color)
      requires Valid() && beginCalled
      modifies renderer, renderer.vertices, renderer.device
      ensures Valid() && beginCalled
      ensures renderer.Submitted() == old(renderer.Submitted()) + StrokeQuad(renderer.trig, Stroke(position, rotation, dimensions, CentreOrigin, color))
    {
      DrawStroke(Stroke(position, rotation, dimensions, CentreOrigin, color));
    }

    /** DrawRectangle as written: the four sides go through DrawLine without the thickness, so
        they take its default of 1. */
    method DrawRectangle(position: Vec2, dimensions: Vec2, color: Color, thickness: real)
      requires Valid() && beginCalled
      modifies renderer, renderer.vertices, renderer.device
      ensures Valid() && beginCalled
      ensures renderer.Submitted() == old(renderer.Submitted())
        + StrokesVertices(renderer.trig, LineStrokes(renderer.trig, RectangleSegments(position, dimensions), color, 1.0))
    {
      DrawOutline(RectangleSegments(position, dimensions), color, 1.0);
    }

    /** The corrected DrawRectangle: the thickness is passed on to the four sides. */
    method DrawRectangleCorrected(position: Vec2, dimensions: Vec2, color: Color, thickness: real)
      requires Valid() && beginCalled
      modifies renderer, renderer.vertices, renderer.device
      ensures Valid() && beginCalled
      ensures renderer.Submitted() == old(renderer.Submitted())
        + StrokesVertices(renderer.trig, LineStrokes(renderer.trig, RectangleSegments(position, dimensions), color, thickness))
    {
      DrawOutline(RectangleSegments(position, dimensions), color, thickness);
    }

    /** The four DrawLine calls of a rectangle, in order. */
    method DrawOutline(sides: seq<Segment>, color: Color, thickness: real)
      requires Valid() && beginCalled && |sides| == 4
      modifies renderer, renderer.vertices, renderer.device
      ensures Valid() && beginCalled
      ensures renderer.Submitted() == old(renderer.Submitted()) + StrokesVertices(renderer.trig, LineStrokes(renderer.trig, sides, color, thickness))
    {
      ghost var before := renderer.Submitted();
      ghost var strokes := LineStrokes(renderer.trig, sides, color, thickness);
      NoStrokeDrawnYet(renderer.trig, before, strokes);
      assert |strokes| == 4;
      DrawSides(sides, color, thickness, before, strokes, 0);
      DrawSides(sides, color, thickness, before, strokes, 2);
      AllStrokesDrawn(renderer.trig, before, strokes);
    }

    /** The DrawLine calls for sides k and k + 1 of an outline whose first k sides are drawn since `before`. */
    method DrawSides(sides: seq<Segment>, color: Color, thickness: real, ghost before: seq<Vertex>, ghost strokes: seq<Stroke>, k: nat)
      requires Valid() && beginCalled
      requires k + 1 < |sides| && strokes == LineStrokes(renderer.trig, sides, color, thickness)
      requires renderer.Submitted() == before + StrokesVertices(renderer.trig, strokes[..k])
      modifies renderer, renderer.vertices, renderer.device
      ensures Valid() && beginCalled
      ensures renderer.Submitted() == before + StrokesVertices(renderer.trig, strokes[..k + 2])
    {
      DrawSide(sides[k], color, thickness, before, strokes, k);
      DrawSide(sides[k + 1], color, thickness, before, strokes, k + 1);
    }

    /** The DrawLine call for side k of an outline whose first k sides are drawn since `before`. */
    method DrawSide(side: Segment, color: Color, thickness: real, ghost before: seq<Vertex>, ghost strokes: seq<Stroke>, ghost k: nat)
      requires Valid() && beginCalled
      requires k < |strokes| && strokes[k] == LineStroke(renderer.trig, side.from, side.to, color, thickness)
      requires renderer.Submitted() == before + StrokesVertices(renderer.trig, strokes[..k])
      modifies renderer, renderer.vertices, renderer.device
      ensures Valid() && beginCalled
      ensures renderer.Submitted() == before + StrokesVertices(renderer.trig, strokes[..k + 1])
    {
      DrawLine(side.from, side.to, color, thickness);
      StrokesExtended(renderer.trig, before, strokes, k);
    }

    method DrawPoint(position: Vec2, color: Color, size: real, thickness: real)
      requires Valid() && beginCalled
      modifies renderer, renderer.vertices, renderer.device
      ensures Valid() && beginCalled
      ensures renderer.Submitted() == old(renderer.Submitted()) + StrokesVertices(renderer.trig, PointStrokes(position, color, size, thickness))
    {
      ghost var before := renderer.Submitted();
      var strokes := PointStrokes(position, color, size, thickness);
      NoStrokeDrawnYet(renderer.trig, before, strokes);
      DrawPair(before, strokes, 0);
      DrawPair(before, strokes, 2);
      AllStrokesDrawn(renderer.trig, before, strokes);
    }
  }
}
