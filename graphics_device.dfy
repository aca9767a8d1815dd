/** GraphicsDevice.cpp: the cached OpenGL state of the device (viewport, clear colour, blend mode,
    scissor rectangle, bound framebuffer, per-frame draw-call counter). Every OpenGL call is
    recorded in a ghost log instead of being performed. */
module Graphics {
  import opened Wrappers
  import MathHelpers

  /** Rectangle.hpp: integer x, y, width and height. */
  datatype Rectangle = Rectangle(x: int, y: int, width: int, height: int)

  datatype Color = Color(r: real, g: real, b: real, a: real)

  const Black := Color(0.0, 0.0, 0.0, 1.0)

  /** Color.hpp's `==`: every channel ApproximatelyEqual. Its `!=` is the negation. */
  function ColorsApproximatelyEqual(c: Color, d: Color): (r: bool)
    ensures c == d ==> r
  {
    && MathHelpers.ApproximatelyEqual(c.r, d.r) && MathHelpers.ApproximatelyEqual(c.g, d.g)
    && MathHelpers.ApproximatelyEqual(c.b, d.b) && MathHelpers.ApproximatelyEqual(c.a, d.a)
  }

  lemma ColorsApproximatelyEqualSymmetric(c: Color, d: Color)
    ensures ColorsApproximatelyEqual(c, d) <==> ColorsApproximatelyEqual(d, c)
  {
    MathHelpers.ApproximatelyEqualSymmetric(c.r, d.r);
    MathHelpers.ApproximatelyEqualSymmetric(c.g, d.g);
    MathHelpers.ApproximatelyEqualSymmetric(c.b, d.b);
    MathHelpers.ApproximatelyEqualSymmetric(c.a, d.a);
  }

  /** A colour within the tolerance of black compares equal to it, although the two differ. */
  lemma NearBlackEqualsBlack()
    ensures Color(0.00005, 0.0, 0.0, 1.0) != Black
    ensures ColorsApproximatelyEqual(Color(0.00005, 0.0, 0.0, 1.0), Black)
  {
  }
  const White := Color(1.0, 1.0, 1.0, 1.0)

  /** Types.hpp, in declaration order. */
  datatype BlendMode = Invalid | None | Additive | Alpha | PremultipliedAlpha

  datatype PrimitiveType = Triangles | TriangleStrip | Lines | LineStrip | Points

  datatype TextureType = Default | RenderTarget

  /** What the device reads from a texture: its type, size and, for a render target, its framebuffer.
      A texture is always at least one pixel wide and high. */
  datatype TextureInfo = TextureInfo(kind: TextureType, width: int, height: int, framebufferId: nat)
  type Texture = t: TextureInfo | t.width > 0 && t.height > 0 witness TextureInfo(Default, 1, 1, 0)

  /** A program object, known to the device only by its id. */
  type ShaderId = nat

  /** The OpenGL calls the device makes, in the order it makes them. */
  datatype GlCall =
    | EnableBlend
    | DisableCullFace
    | SetGlViewport(viewport: Rectangle)
    | SetClearColor(color: Color)
    | Clear(scissored: bool)
    | BlendFunc(mode: BlendMode)
    | EnableScissorTest
    | DisableScissorTest
    | Scissor(rectangle: Rectangle)
    | BindFramebuffer(framebuffer: nat)
    | UseProgram(program: ShaderId)
    | DrawArrays(primitive: PrimitiveType, first: nat, count: nat)

  /** Whether GL_SCISSOR_TEST is on after the calls in `log` (it starts off). */
  function ScissorTestOn(log: seq<GlCall>): bool
  {
    if log == [] then false
    else match log[|log| - 1]
      case EnableScissorTest => true
      case DisableScissorTest => false
      case _ => ScissorTestOn(log[..|log| - 1])
  }

  /** The blend function most recently configured by the calls in `log`, if any. */
  function LastBlend(log: seq<GlCall>): Option<BlendMode>
  {
    if log == [] then Option.None
    else if log[|log| - 1].BlendFunc? then Some(log[|log| - 1].mode)
    else LastBlend(log[..|log| - 1])
  }

  /** One more call updates the scissor-test state only if it enables or disables the test. */
  lemma ScissorAfter(log: seq<GlCall>, call: GlCall)
    ensures ScissorTestOn(log + [call]) == match call
      case EnableScissorTest => true
      case DisableScissorTest => false
      case _ => ScissorTestOn(log)
  {
    assert (log + [call])[..|log|] == log;
  }

  /** The switch in DrawPrimitives: how many vertices `primitiveCount` primitives of type `p` use. */
  function VertexCount(p: PrimitiveType, primitiveCount: nat): nat
  {
    match p
    case Triangles => primitiveCount * 3
    case TriangleStrip => primitiveCount + 2
    case Lines => primitiveCount * 2
    case LineStrip => primitiveCount + 1
    case Points => primitiveCount
  }

  /** How many whole primitives of type `p` a run of `vertexCount` vertices forms. */
  function PrimitivesFormed(p: PrimitiveType, vertexCount: nat): nat
  {
    match p
    case Triangles => vertexCount / 3
    case TriangleStrip => if vertexCount < 3 then 0 else vertexCount - 2
    case Lines => vertexCount / 2
    case LineStrip => if vertexCount < 2 then 0 else vertexCount - 1
    case Points => vertexCount
  }

  /** The vertex count DrawPrimitives passes forms exactly the requested number of primitives and,
      for a non-empty request, is the smallest count that does. */
  lemma VertexCountIsExact(p: PrimitiveType, primitiveCount: nat)
    ensures PrimitivesFormed(p, VertexCount(p, primitiveCount)) == primitiveCount
    ensures primitiveCount > 0 ==> PrimitivesFormed(p, VertexCount(p, primitiveCount) - 1) < primitiveCount
  {
    match p
    case Triangles =>
      assert VertexCount(p, primitiveCount) / 3 == primitiveCount;
      if primitiveCount > 0 {
        assert (primitiveCount * 3 - 1) / 3 == primitiveCount - 1;
      }
    case Lines =>
      assert VertexCount(p, primitiveCount) / 2 == primitiveCount;
      if primitiveCount > 0 {
        assert (primitiveCount * 2 - 1) / 2 == primitiveCount - 1;
      }
    case _ =>
  }

  class GraphicsDevice {
    var viewport: Rectangle
    var clearColor: Color
    var blendMode: BlendMode
    const screenWidth: int
    const screenHeight: int
    var scissorsEnabled: bool
    var scissorsRectangle: Rectangle
    var drawCallsThisFrame: nat
    const defaultFramebufferObject: nat
    var currentFramebufferObject: nat
    /** The OpenGL calls made so far. */
    ghost var gl: seq<GlCall>

    /** The blend-mode cache agrees with OpenGL: the cached mode is the configured blend function. */
    ghost predicate Valid()
      reads this
    {
      && blendMode != Invalid
      && LastBlend(gl) == Some(blendMode)
    }

    /** `scissorsEnabled` is the scissor test's state in OpenGL. Every method but
        DisableScissorsRectangle keeps this. */
    ghost predicate ScissorsInSync()
      reads this
    {
      ScissorTestOn(gl) == scissorsEnabled
    }

    /** The constructor, from the window's size in pixels and the framebuffer bound when the context
        was created (what SDL and glGetIntegerv report). */
    constructor(screenWidth: int, screenHeight: int, defaultFramebuffer: nat)
      ensures Valid() && ScissorsInSync()
      ensures this.screenWidth == screenWidth && this.screenHeight == screenHeight
      ensures viewport == Rectangle(0, 0, screenWidth, screenHeight)
      ensures clearColor == Black && blendMode == PremultipliedAlpha && !scissorsEnabled
      ensures defaultFramebufferObject == defaultFramebuffer && currentFramebufferObject == defaultFramebuffer
      ensures !IsUsingRenderTarget() && drawCallsThisFrame == 0
      ensures gl == [EnableBlend, DisableCullFace, SetGlViewport(viewport), SetClearColor(Black), BlendFunc(PremultipliedAlpha)]
    {
      this.screenWidth := screenWidth;
      this.screenHeight := screenHeight;
      viewport := Rectangle(0, 0, screenWidth, screenHeight);
      clearColor := Black;
      // the source first caches a value no mode equals so that SetBlendMode(PremultipliedAlpha)
      // always configures; the cache and the BlendFunc recorded below are what that call leaves
      blendMode := PremultipliedAlpha;
      scissorsEnabled := false;
      scissorsRectangle := Rectangle(0, 0, 0, 0);
      defaultFramebufferObject := defaultFramebuffer;
      currentFramebufferObject := defaultFramebuffer;
      drawCallsThisFrame := 0;
      gl := [];
      new;
      Record(EnableBlend);
      Record(DisableCullFace);
      Record(SetGlViewport(viewport));
      Record(SetClearColor(Black));
      Record(BlendFunc(PremultipliedAlpha));
    }

    /** Appends one call to the log. */
    ghost method Record(call: GlCall)
      modifies this`gl
      ensures gl == old(gl) + [call]
      ensures ScissorTestOn(gl) == match call
        case EnableScissorTest => true
        case DisableScissorTest => false
        case _ => ScissorTestOn(old(gl))
      ensures LastBlend(gl) == if call.BlendFunc? then Some(call.mode) else LastBlend(old(gl))
    {
      gl := gl + [call];
      assert gl[..|gl| - 1] == old(gl);
    }

    /** True iff a render target's framebuffer is bound instead of the default one. */
    predicate IsUsingRenderTarget()
      reads this
    {
      defaultFramebufferObject != currentFramebufferObject
    }

    method SetViewport(vp: Rectangle)
      requires Valid()
      modifies this
      ensures Valid()
      ensures ScissorTestOn(gl) == ScissorTestOn(old(gl))
      ensures viewport == vp && gl == old(gl) + [SetGlViewport(vp)]
      ensures clearColor == old(clearColor) && blendMode == old(blendMode)
      ensures scissorsEnabled == old(scissorsEnabled) && scissorsRectangle == old(scissorsRectangle)
      ensures drawCallsThisFrame == old(drawCallsThisFrame) && currentFramebufferObject == old(currentFramebufferObject)
    {
      viewport := vp;
      Record(SetGlViewport(vp));
    }

    /** Returns the viewport most recently stored by SetViewport (or by construction). */
    method GetViewport() returns (vp: Rectangle)
      ensures vp == viewport
    {
      vp := viewport;
    }

    /** Clears the framebuffer, switching an enabled scissor test off around the clear. The clear
        colour is set only when it differs beyond the tolerance from the cached one, so the cache
        keeps a nearby colour. The clear is restricted to the scissor rectangle exactly when
        OpenGL's test is on at that moment; while `scissorsEnabled` agrees with OpenGL that never
        happens. */
    method ClearScreen(color: Color)
      requires Valid()
      modifies this
      ensures Valid()
      ensures ColorsApproximatelyEqual(clearColor, color)
      ensures clearColor == if ColorsApproximatelyEqual(color, old(clearColor)) then old(clearColor) else color
      ensures var before := old(gl)
          + (if old(scissorsEnabled) then [DisableScissorTest] else [])
          + (if !ColorsApproximatelyEqual(color, old(clearColor)) then [SetClearColor(color)] else []);
        gl == before + [Clear(ScissorTestOn(before))] + (if old(scissorsEnabled) then [EnableScissorTest] else [])
      ensures old(ScissorsInSync()) ==> (ScissorsInSync() && gl == old(gl)
        + (if old(scissorsEnabled) then [DisableScissorTest] else [])
        + (if !ColorsApproximatelyEqual(color, old(clearColor)) then [SetClearColor(color)] else [])
        + [Clear(false)]
        + (if old(scissorsEnabled) then [EnableScissorTest] else []))
      ensures old(scissorsEnabled) ==> ScissorTestOn(gl)
      ensures !old(scissorsEnabled) ==> ScissorTestOn(gl) == ScissorTestOn(old(gl))
      ensures viewport == old(viewport) && blendMode == old(blendMode)
      ensures scissorsEnabled == old(scissorsEnabled) && scissorsRectangle == old(scissorsRectangle)
      ensures drawCallsThisFrame == old(drawCallsThisFrame) && currentFramebufferObject == old(currentFramebufferObject)
    {
      ghost var log0 := gl;
      if scissorsEnabled {
        Record(DisableScissorTest);
      }
      if !ColorsApproximatelyEqual(color, clearColor) {
        Record(SetClearColor(color));
        clearColor := color;
      } else {
        ColorsApproximatelyEqualSymmetric(color, clearColor);
      }
      ghost var before := gl;
      assert before == log0 + (if old(scissorsEnabled) then [DisableScissorTest] else [])
        + (if !ColorsApproximatelyEqual(color, old(clearColor)) then [SetClearColor(color)] else []);
      Record(Clear(ScissorTestOn(gl)));
      if scissorsEnabled {
        Record(EnableScissorTest);
      }
    }

    /** A mode equal to the cached one changes nothing; an unsupported mode fails (the bare `throw`)
        and leaves the cache alone; any other mode configures the blend function and is cached. */
    method SetBlendMode(mode: BlendMode) returns (outcome: Outcome)
      requires Valid()
      modifies this
      ensures Valid()
      ensures ScissorTestOn(gl) == ScissorTestOn(old(gl))
      ensures outcome == Fail <==> mode == Invalid
      ensures outcome == Ok ==> blendMode == mode
      ensures outcome == Fail ==> blendMode == old(blendMode)
      ensures gl == if mode == old(blendMode) || mode == Invalid then old(gl) else old(gl) + [BlendFunc(mode)]
      ensures viewport == old(viewport) && clearColor == old(clearColor)
      ensures scissorsEnabled == old(scissorsEnabled) && scissorsRectangle == old(scissorsRectangle)
      ensures drawCallsThisFrame == old(drawCallsThisFrame) && currentFramebufferObject == old(currentFramebufferObject)
    {
      if blendMode == mode {
        return Ok;
      }
      match mode
      case Invalid =>
        return Fail;
      case _ =>
        Record(BlendFunc(mode));
      blendMode := mode;
      outcome := Ok;
    }

    /** Enables the scissor test on `scissorsRect`; drawing to the screen flips its y, since OpenGL
        counts window rows from the bottom. */
    method EnableScissorsRectangle(scissorsRect: Rectangle)
      requires Valid()
      modifies this
      ensures Valid() && ScissorsInSync()
      ensures scissorsEnabled
      ensures scissorsRectangle.x == scissorsRect.x
      ensures scissorsRectangle.width == scissorsRect.width && scissorsRectangle.height == scissorsRect.height
      ensures scissorsRectangle.y == if IsUsingRenderTarget() then scissorsRect.y
                                     else screenHeight - scissorsRect.y - scissorsRect.height
      ensures gl == old(gl) + [EnableScissorTest, Scissor(scissorsRectangle)]
      ensures viewport == old(viewport) && clearColor == old(clearColor) && blendMode == old(blendMode)
      ensures drawCallsThisFrame == old(drawCallsThisFrame) && currentFramebufferObject == old(currentFramebufferObject)
    {
      scissorsEnabled := true;
      scissorsRectangle := scissorsRect;

      if !IsUsingRenderTarget() {
        scissorsRectangle := scissorsRectangle.(y := screenHeight - scissorsRectangle.y - scissorsRectangle.height);
      }

      Record(EnableScissorTest);
      Record(Scissor(scissorsRectangle));
    }

    /** DisableScissorsRectangle as written: it calls glEnable, so the test stays on. */
    method DisableScissorsRectangle()
      requires Valid()
      modifies this
      ensures Valid() && !scissorsEnabled && ScissorTestOn(gl)
      ensures gl == old(gl) + [EnableScissorTest]
      ensures viewport == old(viewport) && clearColor == old(clearColor) && blendMode == old(blendMode)
      ensures scissorsRectangle == old(scissorsRectangle)
      ensures drawCallsThisFrame == old(drawCallsThisFrame) && currentFramebufferObject == old(currentFramebufferObject)
    {
      Record(EnableScissorTest);
      scissorsEnabled := false;
    }

    /** The corrected DisableScissorsRectangle: glDisable, which keeps the cache and the scissor test in step. */
    method DisableScissorsRectangleCorrected()
      requires Valid()
      modifies this
      ensures Valid() && ScissorsInSync()
      ensures !scissorsEnabled && !ScissorTestOn(gl)
      ensures gl == old(gl) + [DisableScissorTest]
      ensures viewport == old(viewport) && clearColor == old(clearColor) && blendMode == old(blendMode)
      ensures scissorsRectangle == old(scissorsRectangle)
      ensures drawCallsThisFrame == old(drawCallsThisFrame) && currentFramebufferObject == old(currentFramebufferObject)
    {
      Record(DisableScissorTest);
      scissorsEnabled := false;
    }

    /** Makes the render target's framebuffer current and, if asked, sets the viewport to the whole texture. */
    method BindRenderTarget(texture: Texture, setViewport: bool)
      requires Valid()
      requires texture.kind == RenderTarget
      modifies this
      ensures Valid()
      ensures ScissorTestOn(gl) == ScissorTestOn(old(gl))
      ensures currentFramebufferObject == texture.framebufferId
      ensures IsUsingRenderTarget() <==> texture.framebufferId != defaultFramebufferObject
      ensures viewport == if setViewport then Rectangle(0, 0, texture.width, texture.height) else old(viewport)
      ensures gl == old(gl) + [BindFramebuffer(texture.framebufferId)]
                            + (if setViewport then [SetGlViewport(viewport)] else [])
      ensures clearColor == old(clearColor) && blendMode == old(blendMode)
      ensures scissorsEnabled == old(scissorsEnabled) && scissorsRectangle == old(scissorsRectangle)
      ensures drawCallsThisFrame == old(drawCallsThisFrame)
    {
      currentFramebufferObject := texture.framebufferId;
      Record(BindFramebuffer(currentFramebufferObject));

      if setViewport {
        SetViewport(Rectangle(0, 0, texture.width, texture.height));
      }
    }

    /** Restores the default framebuffer and, if asked, the whole-screen viewport. */
    method UnbindRenderTarget(resetViewport: bool)
      requires Valid()
      modifies this
      ensures Valid()
      ensures ScissorTestOn(gl) == ScissorTestOn(old(gl))
      ensures currentFramebufferObject == defaultFramebufferObject && !IsUsingRenderTarget()
      ensures viewport == if resetViewport then Rectangle(0, 0, screenWidth, screenHeight) else old(viewport)
      ensures gl == old(gl) + [BindFramebuffer(defaultFramebufferObject)]
                            + (if resetViewport then [SetGlViewport(viewport)] else [])
      ensures clearColor == old(clearColor) && blendMode == old(blendMode)
      ensures scissorsEnabled == old(scissorsEnabled) && scissorsRectangle == old(scissorsRectangle)
      ensures drawCallsThisFrame == old(drawCallsThisFrame)
    {
      currentFramebufferObject := defaultFramebufferObject;
      Record(BindFramebuffer(defaultFramebufferObject));

      if resetViewport {
        SetViewport(Rectangle(0, 0, screenWidth, screenHeight));
      }
    }

    method ApplyShaderProgram(program: ShaderId)
      requires Valid()
      modifies this
      ensures Valid()
      ensures ScissorTestOn(gl) == ScissorTestOn(old(gl))
      ensures gl == old(gl) + [UseProgram(program)]
      ensures viewport == old(viewport) && clearColor == old(clearColor) && blendMode == old(blendMode)
      ensures scissorsEnabled == old(scissorsEnabled) && scissorsRectangle == old(scissorsRectangle)
      ensures drawCallsThisFrame == old(drawCallsThisFrame) && currentFramebufferObject == old(currentFramebufferObject)
    {
      Record(UseProgram(program));
    }

    /** Starts a frame: the draw-call counter restarts from zero. */
    method BeginFrame()
      requires Valid()
      modifies this
      ensures Valid()
      ensures ScissorTestOn(gl) == ScissorTestOn(old(gl))
      ensures drawCallsThisFrame == 0 && gl == old(gl)
      ensures viewport == old(viewport) && clearColor == old(clearColor) && blendMode == old(blendMode)
      ensures scissorsEnabled == old(scissorsEnabled) && scissorsRectangle == old(scissorsRectangle)
      ensures currentFramebufferObject == old(currentFramebufferObject)
    {
      drawCallsThisFrame := 0;
    }

    /** Draws `primitiveCount` primitives starting at `vertexStart` with the vertex count the
        primitive type needs, and counts one draw call. */
    method DrawPrimitives(primitiveType: PrimitiveType, vertexStart: nat, primitiveCount: nat)
      requires Valid()
      modifies this
      ensures Valid()
      ensures ScissorTestOn(gl) == ScissorTestOn(old(gl))
      ensures drawCallsThisFrame == old(drawCallsThisFrame) + 1
      ensures gl == old(gl) + [DrawArrays(primitiveType, vertexStart, VertexCount(primitiveType, primitiveCount))]
      ensures viewport == old(viewport) && clearColor == old(clearColor) && blendMode == old(blendMode)
      ensures scissorsEnabled == old(scissorsEnabled) && scissorsRectangle == old(scissorsRectangle)
      ensures currentFramebufferObject == old(currentFramebufferObject)
    {
      var vertexCount := VertexCount(primitiveType, primitiveCount);
      Record(DrawArrays(primitiveType, vertexStart, vertexCount));
      drawCallsThisFrame := drawCallsThisFrame + 1;
      VertexCountIsExact(primitiveType, primitiveCount);
    }
  }

  /** After the scissor rectangle is disabled as written, clearing the screen only clears the old
      scissor rectangle: the clear runs with the scissor test on. */
  method ScissorStaysOnAfterDisable(device: GraphicsDevice, rect: Rectangle, color: Color)
    requires device.Valid()
    modifies device
    ensures !device.scissorsEnabled
    ensures |device.gl| > 0 && device.gl[|device.gl| - 1] == Clear(true)
  {
    device.EnableScissorsRectangle(rect);
    device.DisableScissorsRectangle();
    device.ClearScreen(color);
  }

  /** With glDisable the same sequence clears the whole framebuffer. */
  method ScissorOffAfterDisable(device: GraphicsDevice, rect: Rectangle, color: Color)
    requires device.Valid()
    modifies device
    ensures device.Valid() && device.ScissorsInSync() && !device.scissorsEnabled
    ensures |device.gl| > 0 && device.gl[|device.gl| - 1] == Clear(false)
  {
    device.EnableScissorsRectangle(rect);
    device.DisableScissorsRectangleCorrected();
    device.ClearScreen(color);
  }
}
