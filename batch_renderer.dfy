/** BatchRenderer.cpp: a fixed-capacity vertex buffer that collects quads and triangles between
    Begin and End and hands them to the graphics device in batches, flushing whenever the next
    primitive would not fit. */
module BatchRendering {
  import opened Wrappers
  import opened Graphics
  import opened UVModes
  import opened BatchGeometry

  datatype Vertex = Vertex(x: real, y: real, u: real, v: real, color: Color)

  const Blank := Vertex(0.0, 0.0, 0.0, 0.0, Color(0.0, 0.0, 0.0, 0.0))

  /** The C library functions the renderer and its clients call. */
  datatype Trig = Trig(sin: real -> real, cos: real -> real, atan2: (real, real) -> real, sqrt: real -> real)

  /** A glm::mat4, kept opaque: the projection arithmetic is not part of this model. */
  type Matrix = seq<real>

  const Identity: Matrix := [1.0, 0.0, 0.0, 0.0, 0.0, 1.0, 0.0, 0.0, 0.0, 0.0, 1.0, 0.0, 0.0, 0.0, 0.0, 1.0]

  /** All batches in submission order, as one vertex stream. */
  function Flatten(batches: seq<seq<Vertex>>): seq<Vertex>
  {
    if batches == [] then [] else Flatten(batches[..|batches| - 1]) + batches[|batches| - 1]
  }

  lemma FlattenSnoc(batches: seq<seq<Vertex>>, b: seq<Vertex>)
    ensures Flatten(batches + [b]) == Flatten(batches) + b
  {
    assert (batches + [b])[..|batches|] == batches;
  }

  /** The six vertices a quad with corners 0..3 is stored as: triangles (0,1,2) and (0,2,3). */
  function QuadVertices(c: seq<Vertex>): seq<Vertex>
    requires |c| == 4
  {
    [c[0], c[1], c[2], c[0], c[2], c[3]]
  }

  /** The two triangles of a stored quad share the diagonal 0-2 and between them use each corner. */
  lemma QuadTriangles(c: seq<Vertex>)
    requires |c| == 4
    ensures var q := QuadVertices(c);
      && |q| == 6 && q[3] == q[0] && q[4] == q[2]
      && {q[0], q[1], q[2]} + {q[3], q[4], q[5]} == {c[0], c[1], c[2], c[3]}
  {
  }

  /** The corners BatchQuadUV emits: the box from xy0 to xy1 with texture box uv0 to uv1. */
  function BoxCorners(uv0: Vec2, uv1: Vec2, xy0: Vec2, xy1: Vec2, color: Color): (r: seq<Vertex>)
    ensures |r| == 4
  {
    [Vertex(xy0.x, xy0.y, uv0.x, uv0.y, color), Vertex(xy1.x, xy0.y, uv1.x, uv0.y, color),
     Vertex(xy1.x, xy1.y, uv1.x, uv1.y, color), Vertex(xy0.x, xy1.y, uv0.x, uv1.y, color)]
  }

  /** Appending the next three vertices of a triangle list extends the copied prefix by them. */
  lemma TriangleAppended(start: seq<Vertex>, submitted: seq<Vertex>, triangleVertices: seq<Vertex>, index: nat)
    requires index + 3 <= |triangleVertices| && submitted == start + triangleVertices[..index]
    ensures submitted + [triangleVertices[index], triangleVertices[index + 1], triangleVertices[index + 2]]
         == start + triangleVertices[..index + 3]
  {
    assert triangleVertices[..index + 3] == triangleVertices[..index]
      + [triangleVertices[index], triangleVertices[index + 1], triangleVertices[index + 2]];
  }

  /** The region of the texture a quad draws: the given rectangle, or the whole texture. */
  function SourceOf(texture: Texture, sourceRectangle: Option<Rectangle>): Rectangle
  {
    if sourceRectangle.Some? then sourceRectangle.value else Rectangle(0, 0, texture.width, texture.height)
  }

  /** One corner BatchQuad emits: its screen position and its texture corner divided by the texture size. */
  function TexturedCorner(texture: Texture, xy: Vec2, uv: Pixel, color: Color): Vertex
  {
    Vertex(xy.x, xy.y, uv.x as real / texture.width as real, uv.y as real / texture.height as real, color)
  }

  /** The corners BatchQuad emits: positions of the scaled, rotated quad, and the texture corners
      the UV mode picks, divided by the texture size. */
  function TexturedCorners(texture: Texture, sourceRectangle: Option<Rectangle>, position: Vec2,
                           sin: real, cos: real, scale: Vec2, origin: Vec2, uvMode: UVMode, color: Color): (r: seq<Vertex>)
    ensures |r| == 4
  {
    var source := SourceOf(texture, sourceRectangle);
    var destW := scale.x * source.width as real;
    var destH := scale.y * source.height as real;
    var uv := UVCorners(source, uvMode);
    var xy := QuadCorners(position, sin, cos, destW, destH, origin);
    [TexturedCorner(texture, xy[0], uv[0], color), TexturedCorner(texture, xy[1], uv[1], color),
     TexturedCorner(texture, xy[2], uv[2], color), TexturedCorner(texture, xy[3], uv[3], color)]
  }

  /** Where a quad's six vertices start once the flush check has run. */
  function QuadSlot(activeVertices: nat, maximumVertices: nat): nat
  {
    if activeVertices + 6 > maximumVertices then 0 else activeVertices
  }

  /** With room for at least two triangles, a quad always lands inside the buffer, and a flush
      before it never sees an empty batch. */
  lemma QuadInBounds(activeVertices: nat, maximumVertices: nat)
    requires maximumVertices >= 6 && activeVertices <= maximumVertices
    ensures QuadSlot(activeVertices, maximumVertices) + 6 <= maximumVertices
    ensures activeVertices + 6 > maximumVertices ==> activeVertices > 0
  {
  }

  /** Every batch handed to the device holds between one and `maximumVertices / 3` whole triangles. */
  ghost predicate WholeBatches(batches: seq<seq<Vertex>>, maximumVertices: nat)
  {
    forall k | 0 <= k < |batches| :: 0 < |batches[k]| <= maximumVertices && |batches[k]| % 3 == 0
  }

  lemma BatchesStayWhole(batches: seq<seq<Vertex>>, batch: seq<Vertex>, maximumVertices: nat)
    requires WholeBatches(batches, maximumVertices)
    requires 0 < |batch| <= maximumVertices && |batch| % 3 == 0
    ensures WholeBatches(batches + [batch], maximumVertices)
  {
  }

  class BatchRenderer {
    const device: GraphicsDevice
    const trig: Trig
    const maximumVertices: nat
    const vertices: array<Vertex>
    const defaultShaderProgram: ShaderId
    var activeVertices: nat
    var batchStarted: bool
    var blendMode: BlendMode
    var texture: Option<Texture>
    var currentShaderProgram: Option<ShaderId>
    var transformMatrix: Matrix
    /** The contents of every batch handed to the device so far. */
    ghost var batches: seq<seq<Vertex>>

    ghost predicate Valid()
      reads this, vertices, device
    {
      && vertices.Length == maximumVertices
      && maximumVertices >= 3 && maximumVertices % 3 == 0
      && activeVertices <= maximumVertices && activeVertices % 3 == 0
      && device.Valid()
      && (batchStarted ==> currentShaderProgram.Some?)
      && (!batchStarted ==> activeVertices == 0 && texture.None? && currentShaderProgram.None?)
      && WholeBatches(batches, maximumVertices)
    }

    /** The vertices collected since the last flush. */
    ghost function Pending(): seq<Vertex>
      reads this, vertices
      requires activeVertices <= vertices.Length
    {
      vertices[..activeVertices]
    }

    /** Everything submitted so far: the flushed batches followed by the pending vertices. */
    ghost function Submitted(): seq<Vertex>
      reads this, vertices
      requires activeVertices <= vertices.Length
    {
      Flatten(batches) + Pending()
    }

    /** The constructor: room for `maximumTriangles` triangles, no batch open. */
    constructor(device: GraphicsDevice, trig: Trig, maximumTriangles: nat, defaultShaderProgram: ShaderId)
      requires maximumTriangles > 0 && device.Valid()
      ensures Valid() && fresh(vertices)
      ensures this.device == device && this.trig == trig && this.defaultShaderProgram == defaultShaderProgram
      ensures maximumVertices == 3 * maximumTriangles
      ensures !batchStarted && batches == [] && Submitted() == []
    {
      this.device := device;
      this.trig := trig;
      this.defaultShaderProgram := defaultShaderProgram;
      maximumVertices := maximumTriangles * 3;
      batchStarted := false;
      vertices := new Vertex[maximumTriangles * 3](_ => Blank);
      activeVertices := 0;
      blendMode := Invalid;
      texture := Option.None;
      currentShaderProgram := Option.None;
      transformMatrix := Identity;
      batches := [];
    }

    predicate BatchStarted()
      reads this
    {
      batchStarted
    }

    /** A flush binds the batch's texture to the default program's TextureSampler, which its
        fragment shader always declares; with no texture that is a null dereference. */
    predicate SamplerHasTexture()
      reads this
    {
      currentShaderProgram == Some(defaultShaderProgram) ==> texture.Some?
    }

    /** Opens a batch; fails (the bare `throw`) if one is already open. A missing shader program
        is replaced by the default one. Any blend mode is stored, Invalid included: it fails only
        when a flush hands it to the device. */
    method Begin(blendMode: BlendMode, texture: Option<Texture>, shaderProgram: Option<ShaderId>, transformMatrix: Matrix)
      returns (outcome: Outcome)
      requires Valid()
      modifies this
      ensures Valid()
      ensures outcome == Fail <==> old(batchStarted)
      ensures outcome == Fail ==> (
        && this.blendMode == old(this.blendMode) && this.texture == old(this.texture)
        && currentShaderProgram == old(currentShaderProgram) && this.transformMatrix == old(this.transformMatrix)
        && activeVertices == old(activeVertices))
      ensures outcome == Ok ==> (
        && batchStarted && activeVertices == 0
        && this.blendMode == blendMode && this.texture == texture && this.transformMatrix == transformMatrix
        && currentShaderProgram == Some(if shaderProgram.Some? then shaderProgram.value else defaultShaderProgram))
      ensures batchStarted && batches == old(batches) && Submitted() == old(Submitted())
    {
      if batchStarted {
        return Fail;
      }

      activeVertices := 0;
      batchStarted := true;
      this.blendMode := blendMode;
      this.texture := texture;
      currentShaderProgram := Some(if shaderProgram.Some? then shaderProgram.value else defaultShaderProgram);
      this.transformMatrix := transformMatrix;
      outcome := Ok;
    }

    /** Closes the batch after flushing it; fails (the bare `throw`) if none is open, and fails
        in the flush when the batch's blend mode is Invalid. The flush demands at least one
        pending triangle. */
    method End() returns (outcome: Outcome)
      requires Valid()
      requires batchStarted ==> activeVertices > 0
      requires SamplerHasTexture()
      modifies this, device
      ensures Valid()
      ensures outcome == Fail <==> !old(batchStarted) || old(blendMode) == Invalid
      ensures outcome == Fail ==> batches == old(batches) && device.gl == old(device.gl) && batchStarted == old(batchStarted)
      ensures outcome == Ok ==> batches == old(batches) + [old(Pending())] && !batchStarted
      ensures Submitted() == old(Submitted()) && blendMode == old(blendMode)
      ensures device.viewport == old(device.viewport) && device.currentFramebufferObject == old(device.currentFramebufferObject)
    {
      if !batchStarted {
        return Fail;
      }

      outcome := Flush();
      if outcome == Fail {
        return;
      }

      currentShaderProgram := Option.None;
      texture := Option.None;
      batchStarted := false;
      outcome := Ok;
    }

    /** Hands the pending vertices to the device as `activeVertices / 3` triangles and empties the
        buffer; fails (the device's `throw`) when the batch's blend mode is Invalid. */
    method Flush() returns (outcome: Outcome)
      requires Valid() && batchStarted && activeVertices > 0 && SamplerHasTexture()
      modifies this, device
      ensures Valid()
      ensures outcome == Fail <==> blendMode == Invalid
      ensures outcome == Fail ==> (
        && batches == old(batches) && activeVertices == old(activeVertices)
        && device.gl == old(device.gl) && device.drawCallsThisFrame == old(device.drawCallsThisFrame))
      ensures outcome == Ok ==> batches == old(batches) + [old(Pending())] && activeVertices == 0
      ensures Submitted() == old(Submitted())
      ensures outcome == Ok ==> (device.gl == old(device.gl)
        + (if blendMode == old(device.blendMode) then [] else [BlendFunc(blendMode)])
        + [UseProgram(old(currentShaderProgram).value), DrawArrays(Triangles, 0, old(activeVertices))])
      ensures outcome == Ok ==> device.drawCallsThisFrame == old(device.drawCallsThisFrame) + 1
      ensures device.viewport == old(device.viewport) && device.currentFramebufferObject == old(device.currentFramebufferObject)
      ensures device.scissorsEnabled == old(device.scissorsEnabled) && device.clearColor == old(device.clearColor)
      ensures batchStarted && blendMode == old(blendMode) && texture == old(texture)
      ensures currentShaderProgram == old(currentShaderProgram) && transformMatrix == old(transformMatrix)
    {
      outcome := device.SetBlendMode(blendMode);
      if outcome == Fail {
        return;
      }
      DrawPending();
    }

    /** The rest of a flush once the blend mode is set: use the program, draw the pending
        triangles as one batch and empty the buffer. */
    method DrawPending()
      requires Valid() && batchStarted && activeVertices > 0
      modifies this, device
      ensures Valid()
      ensures batches == old(batches) + [old(Pending())] && activeVertices == 0
      ensures Submitted() == old(Submitted())
      ensures device.gl == old(device.gl) + [UseProgram(old(currentShaderProgram).value), DrawArrays(Triangles, 0, old(activeVertices))]
      ensures device.drawCallsThisFrame == old(device.drawCallsThisFrame) + 1
      ensures device.viewport == old(device.viewport) && device.currentFramebufferObject == old(device.currentFramebufferObject)
      ensures device.scissorsEnabled == old(device.scissorsEnabled) && device.clearColor == old(device.clearColor)
      ensures device.blendMode == old(device.blendMode)
      ensures batchStarted && blendMode == old(blendMode) && texture == old(texture)
      ensures currentShaderProgram == old(currentShaderProgram) && transformMatrix == old(transformMatrix)
    {
      device.ApplyShaderProgram(currentShaderProgram.value);

      BatchesStayWhole(batches, vertices[..activeVertices], maximumVertices);
      batches := batches + [vertices[..activeVertices]];
      FlattenSnoc(old(batches), old(Pending()));
      device.DrawPrimitives(Triangles, 0, activeVertices / 3);

      activeVertices := 0;
    }

    /** The flush check and the six stores shared by BatchQuadUV and BatchQuad: flush when the
        quad would not fit, then store corners 0,1,2, copy 0 and 2, store 3. A flush with an
        Invalid blend mode fails and nothing is stored. */
    method PutQuad(corners: seq<Vertex>) returns (outcome: Outcome)
      requires Valid() && batchStarted && maximumVertices >= 6 && |corners| == 4 && SamplerHasTexture()
      modifies this, vertices, device
      ensures Valid()
      ensures outcome == Fail <==> old(activeVertices) + 6 > maximumVertices && blendMode == Invalid
      ensures outcome == Fail ==> batches == old(batches) && Submitted() == old(Submitted()) && device.gl == old(device.gl)
      ensures outcome == Ok && old(activeVertices) + 6 > maximumVertices ==>
        batches == old(batches) + [old(Pending())] && activeVertices == 6
      ensures old(activeVertices) + 6 <= maximumVertices ==>
        batches == old(batches) && activeVertices == old(activeVertices) + 6 && device.gl == old(device.gl)
      ensures outcome == Ok ==> activeVertices >= 6 && vertices[activeVertices - 6..activeVertices] == QuadVertices(corners)
      ensures outcome == Ok ==> forall k | 0 <= k < activeVertices - 6 :: vertices[k] == old(vertices[k])
      ensures outcome == Ok ==> Submitted() == old(Submitted()) + QuadVertices(corners)
      ensures batchStarted && blendMode == old(blendMode) && texture == old(texture)
      ensures currentShaderProgram == old(currentShaderProgram) && transformMatrix == old(transformMatrix)
      ensures device.viewport == old(device.viewport) && device.currentFramebufferObject == old(device.currentFramebufferObject)
      ensures device.scissorsEnabled == old(device.scissorsEnabled)
    {
      if activeVertices + 6 > maximumVertices {
        outcome := Flush();
        if outcome == Fail {
          return;
        }
      }
      StoreQuad(corners);
      outcome := Ok;
    }

    /** The six stores of one quad into free room at the end of the buffer. */
    method StoreQuad(corners: seq<Vertex>)
      requires Valid() && batchStarted && activeVertices + 6 <= maximumVertices && |corners| == 4
      modifies this, vertices
      ensures Valid() && batchStarted
      ensures activeVertices == old(activeVertices) + 6 && batches == old(batches)
      ensures Pending() == old(Pending()) + QuadVertices(corners)
      ensures Submitted() == old(Submitted()) + QuadVertices(corners)
      ensures blendMode == old(blendMode) && texture == old(texture)
      ensures currentShaderProgram == old(currentShaderProgram) && transformMatrix == old(transformMatrix)
    {
      var a := activeVertices;
      ghost var kept := vertices[..a];
      vertices[a] := corners[0];
      vertices[a + 1] := corners[1];
      vertices[a + 2] := corners[2];
      vertices[a + 3] := vertices[a];
      vertices[a + 4] := vertices[a + 2];
      vertices[a + 5] := corners[3];
      activeVertices := a + 6;
      assert vertices[..activeVertices] == kept + QuadVertices(corners);
    }

    /** Queues an axis-aligned quad from `xy0` to `xy1` with texture coordinates `uv0` to `uv1`. */
    method BatchQuadUV(uv0: Vec2, uv1: Vec2, xy0: Vec2, xy1: Vec2, color: Color) returns (outcome: Outcome)
      requires Valid() && batchStarted && maximumVertices >= 6 && SamplerHasTexture()
      modifies this, vertices, device
      ensures Valid() && batchStarted
      ensures outcome == Fail <==> old(activeVertices) + 6 > maximumVertices && blendMode == Invalid
      ensures outcome == Fail ==> batches == old(batches) && Submitted() == old(Submitted())
      ensures outcome == Ok ==> Submitted() == old(Submitted()) + QuadVertices(BoxCorners(uv0, uv1, xy0, xy1, color))
      ensures outcome == Ok ==> (old(activeVertices) + 6 > maximumVertices <==> |batches| == |old(batches)| + 1)
      ensures old(activeVertices) + 6 <= maximumVertices ==> batches == old(batches)
      ensures outcome == Ok ==> activeVertices == if old(activeVertices) + 6 > maximumVertices then 6 else old(activeVertices) + 6
      ensures blendMode == old(blendMode) && texture == old(texture)
      ensures currentShaderProgram == old(currentShaderProgram) && transformMatrix == old(transformMatrix)
      ensures device.viewport == old(device.viewport) && device.currentFramebufferObject == old(device.currentFramebufferObject)
      ensures device.scissorsEnabled == old(device.scissorsEnabled)
    {
      outcome := PutQuad(BoxCorners(uv0, uv1, xy0, xy1, color));
    }

    /** Queues a textured quad: `scale` multiplies the source size, `origin` (in units of the
        quad's size) is the point placed at `position` and rotated about. */
    method BatchQuad(sourceRectangle: Option<Rectangle>, position: Vec2, rotation: real, scale: Vec2,
                     origin: Vec2, uvMode: UVMode, color: Color) returns (outcome: Outcome)
      requires Valid() && texture.Some? && maximumVertices >= 6
      modifies this, vertices, device
      ensures Valid() && batchStarted
      ensures outcome == Fail <==> old(activeVertices) + 6 > maximumVertices && blendMode == Invalid
      ensures outcome == Fail ==> batches == old(batches) && Submitted() == old(Submitted())
      ensures outcome == Ok ==> Submitted() == old(Submitted()) + QuadVertices(TexturedCorners(old(texture).value, sourceRectangle, position,
        trig.sin(rotation), trig.cos(rotation), scale, origin, uvMode, color))
      ensures outcome == Ok ==> (old(activeVertices) + 6 > maximumVertices <==> |batches| == |old(batches)| + 1)
      ensures old(activeVertices) + 6 <= maximumVertices ==> batches == old(batches)
      ensures outcome == Ok ==> activeVertices == if old(activeVertices) + 6 > maximumVertices then 6 else old(activeVertices) + 6
      ensures blendMode == old(blendMode) && texture == old(texture)
      ensures currentShaderProgram == old(currentShaderProgram) && transformMatrix == old(transformMatrix)
      ensures device.viewport == old(device.viewport) && device.currentFramebufferObject == old(device.currentFramebufferObject)
      ensures device.scissorsEnabled == old(device.scissorsEnabled)
    {
      var rotationSin := trig.sin(rotation);
      var rotationCos := trig.cos(rotation);
      outcome := PutQuad(TexturedCorners(texture.value, sourceRectangle, position, rotationSin, rotationCos, scale, origin, uvMode, color));
    }

    /** Copies `triangleCount` triangles in order, flushing before any triangle that would not fit.
        With an Invalid blend mode the first flush fails, which happens exactly when the triangles
        do not all fit in the free room. */
    method BatchTriangles(triangleVertices: seq<Vertex>, triangleCount: int) returns (outcome: Outcome)
      requires Valid() && batchStarted && SamplerHasTexture()
      requires triangleCount > 0 && |triangleVertices| >= 3 * triangleCount
      modifies this, vertices, device
      ensures Valid() && batchStarted
      ensures outcome == Fail <==> old(activeVertices) + 3 * triangleCount > maximumVertices && blendMode == Invalid
      ensures outcome == Ok ==> Submitted() == old(Submitted()) + triangleVertices[..3 * triangleCount]
      ensures old(batches) <= batches
      ensures blendMode == old(blendMode) && texture == old(texture)
      ensures currentShaderProgram == old(currentShaderProgram) && transformMatrix == old(transformMatrix)
      ensures device.viewport == old(device.viewport) && device.currentFramebufferObject == old(device.currentFramebufferObject)
      ensures device.scissorsEnabled == old(device.scissorsEnabled)
    {
      ghost var submitted0, batches0, active0 := Submitted(), batches, activeVertices;
      var index := 0;
      while index < triangleCount * 3
        invariant 0 <= index <= 3 * triangleCount && index % 3 == 0
        invariant Valid() && batchStarted
        invariant Submitted() == submitted0 + triangleVertices[..index]
        invariant batches0 <= batches
        invariant blendMode == Invalid ==> activeVertices == active0 + index
        invariant blendMode == old(blendMode) && texture == old(texture)
        invariant currentShaderProgram == old(currentShaderProgram) && transformMatrix == old(transformMatrix)
        invariant device.viewport == old(device.viewport) && device.currentFramebufferObject == old(device.currentFramebufferObject)
        invariant device.scissorsEnabled == old(device.scissorsEnabled)
      {
        ghost var submitted := Submitted();
        outcome := PutTriangleWithFlush(triangleVertices[index], triangleVertices[index + 1], triangleVertices[index + 2]);
        if outcome == Fail {
          assert active0 + index + 3 > maximumVertices && index + 3 <= 3 * triangleCount;
          return;
        }
        TriangleAppended(submitted0, submitted, triangleVertices, index);
        index := index + 3;
      }
      outcome := Ok;
    }

    /** One step of BatchTriangles: flush when the triangle would not fit, then store it. */
    method PutTriangleWithFlush(v0: Vertex, v1: Vertex, v2: Vertex) returns (outcome: Outcome)
      requires Valid() && batchStarted && SamplerHasTexture()
      modifies this, vertices, device
      ensures Valid() && batchStarted
      ensures outcome == Fail <==> old(activeVertices) + 3 > maximumVertices && blendMode == Invalid
      ensures outcome == Fail ==> batches == old(batches) && activeVertices == old(activeVertices)
      ensures outcome == Ok ==> Submitted() == old(Submitted()) + [v0, v1, v2]
      ensures outcome == Ok ==> (old(activeVertices) + 3 > maximumVertices <==> batches == old(batches) + [old(Pending())])
      ensures old(activeVertices) + 3 <= maximumVertices ==> batches == old(batches) && activeVertices == old(activeVertices) + 3
      ensures blendMode == old(blendMode) && texture == old(texture)
      ensures currentShaderProgram == old(currentShaderProgram) && transformMatrix == old(transformMatrix)
      ensures device.viewport == old(device.viewport) && device.currentFramebufferObject == old(device.currentFramebufferObject)
      ensures device.scissorsEnabled == old(device.scissorsEnabled)
    {
      if activeVertices + 3 > maximumVertices {
        outcome := Flush();
        if outcome == Fail {
          return;
        }
      }
      PutTriangle(v0, v1, v2);
      outcome := Ok;
    }

    /** The three stores of one triangle into free room at the end of the buffer. */
    method PutTriangle(v0: Vertex, v1: Vertex, v2: Vertex)
      requires Valid() && batchStarted && activeVertices + 3 <= maximumVertices
      modifies this, vertices
      ensures Valid() && batchStarted
      ensures activeVertices == old(activeVertices) + 3 && batches == old(batches)
      ensures Submitted() == old(Submitted()) + [v0, v1, v2]
      ensures blendMode == old(blendMode) && texture == old(texture)
      ensures currentShaderProgram == old(currentShaderProgram) && transformMatrix == old(transformMatrix)
    {
      var a := activeVertices;
      vertices[a] := v0;
      vertices[a + 1] := v1;
      vertices[a + 2] := v2;
      activeVertices := a + 3;
      assert vertices[..activeVertices] == old(vertices[..a]) + [v0, v1, v2];
    }
  }

  /** The constructor's assert admits a renderer for one triangle. After Begin its buffer has three
      slots and nothing is pending, yet the first quad takes the flush branch: that flush meets an
      empty batch, which Flush's own assert rejects, and the six stores that follow need more
      slots than the buffer has. */
  method QuadOverflowsSingleTriangleBuffer(device: GraphicsDevice, trig: Trig, defaultShaderProgram: ShaderId)
    returns (r: BatchRenderer)
    requires device.Valid()
    ensures r.Valid() && r.batchStarted && r.vertices.Length == 3 && r.activeVertices == 0
    ensures r.activeVertices + 6 > r.maximumVertices
    ensures QuadSlot(r.activeVertices, r.maximumVertices) + 6 > r.vertices.Length
  {
    r := new BatchRenderer(device, trig, 1, defaultShaderProgram);
    var _ := r.Begin(Alpha, Option.None, Option.None, Identity);
  }
}
