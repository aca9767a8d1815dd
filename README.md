# Lucky engine core, modelled in Dafny

This project models the core of the Lucky game engine (the `Lucky` library of the Nowhere
repository), written in C++ over OpenGL and SDL3, and proves properties of that model.

- **`Graphics`** (`graphics_device.dfy`) models the `GraphicsDevice` class.
  - Its cached OpenGL state is a Dafny class with the same fields: viewport, clear colour, blend
    mode, scissor rectangle, bound framebuffer and per-frame draw-call counter.
  - Every OpenGL call is appended to a ghost log instead of being made.
  - `Valid()` states that the cached blend mode agrees with the log.
  - `ScissorsInSync()` states that `scissorsEnabled` is the scissor test's state in the log. The
    constructor, `EnableScissorsRectangle` and the corrected disable establish it, and
    `ClearScreen` keeps it. The as-written `DisableScissorsRectangle` breaks it, while `Valid()`
    still holds.
- **`UVModes`** (`uv_mode.dfy`) models the `UVMode` flag set (`bv32`), its operators and `HasFlag`.
- **`BatchGeometry`** (`batch_geometry.dfy`) models the texture-corner order chosen by the UV mode
  and the rotated, scaled screen corners of a quad.
- **`BatchRendering`** (`batch_renderer.dfy`) models `BatchRenderer`.
  - The vertex buffer is an `array` of capacity `3 * maximumTriangles`, with a fill counter and a
    Begin/End session flag.
  - A ghost list records every batch handed to the device.
  - `Submitted()` is everything queued so far: the flushed batches followed by the pending vertices.
- **`DebugDrawing`** (`debug_draw.dfy`) models `DebugDraw`.
  - Every shape is a list of strokes: `BatchQuad` requests on a 1x1 white texture through a
    1000-triangle renderer of its own.
  - Each drawing method is proved to append exactly its strokes' quads to the renderer's stream.
- **`Bloom`** (`bloom_effect.dfy`) models `BloomEffect`.
  - The constructor's mip-chain sizing loop.
  - The pass schedule of `ApplyEffect`, as a ghost list of steps.
- **`Audio`** (`audio_player.dfy`) models `AudioPlayer` and `SoundInstance`.
  - The instance table keyed by ever-increasing references, and the sound-group table keyed by name.
  - Which stream is bound to which logical device, as ghost state.
  - The frame cursor that `PutSamplesSDL` advances, including its wrap-around recursion for looping sounds.
- **`FileSystem`** (`file_system.dfy`) models `Split`, `GetPathName`, `GetFileExtension` and
  `CombinePaths`, over `string`.
- **`StateMachines`** (`state_machine.dfy`) models the `StateMachine` template.
  - Types become `TypeId` values.
  - The registry is a map whose entries may be null.
  - The virtual hooks are recorded as a ghost trace.
- **`MathHelpers`** (`math_helpers.dfy`) models integer instantiations of `Lerp`, `Sign`, `Clamp` and `MoveTowards`, and `ApproximatelyEqual` on reals.
- **`Random`** (`random.dfy`) models the integral `GenerateRandom` over 32-bit arithmetic, with
  `SquirrelNoise5` as a function parameter.
- **`Wrappers`** (`wrappers.dfy`) holds the shared `Option` and `Outcome` types.

How the C++ error paths are modelled:

- A bare `throw;` with no exception in flight terminates the program. It is modelled
  as the `Fail` outcome. This covers `Begin`, `End`, `SetBlendMode` (and so a renderer flush
  with an Invalid blend mode), `CreateSoundGroup` and the volume lookups of `PutSamplesSDL`.
  The failing call leaves the object's state unchanged, with one exception: `BatchTriangles`
  keeps the triangles it stored before the flush that fails, as the source does.
- An `assert` of the source becomes a `requires`.

The audio player has no `Update()` and no `GetState()`: SDL pulls samples through
`AudioCallback`, and the model follows that.

Where the code is wrong (see Findings), the member with the source's name models the code as
written, and a member with the suffix `Corrected` (or, for `SetState`, `SetStateWithoutInsert`)
models the evident intent.

## Model

| member | source | states |
|---|---|---|
| `Graphics.ScissorAfter` | Source/Lucky/Source/Graphics/GraphicsDevice.cpp:173-195 | One more OpenGL call turns the scissor test on if it is glEnable, off if it is glDisable, and leaves it as it was otherwise. |
| `Graphics.VertexCountIsExact` | Source/Lucky/Source/Graphics/GraphicsDevice.cpp:255-280 | The vertex count chosen for each primitive type (3n, n+2, 2n, n+1, n) forms exactly n primitives of that type. For n > 0 it is the smallest count that does. |
| `Graphics.GraphicsDevice.constructor` | Source/Lucky/Source/Graphics/GraphicsDevice.cpp:40-96 | The constructor enables blending, disables culling and sets the whole-window viewport. It sets a black clear colour and configures and caches PremultipliedAlpha. The scissor test is off, the default framebuffer is current, no draw calls are counted, and the cache agrees with OpenGL. |
| `Graphics.GraphicsDevice.SetViewport` | Source/Lucky/Source/Graphics/GraphicsDevice.cpp:103-112 | Stores the viewport and issues glViewport with it; nothing else changes. |
| `Graphics.GraphicsDevice.GetViewport` | Source/Lucky/Source/Graphics/GraphicsDevice.cpp:114-117 | Returns the viewport most recently stored. |
| `Graphics.ColorsApproximatelyEqual` | Source/Lucky/Include/Lucky/Graphics/Color.hpp:31-40 | Equal colours compare equal; each channel is compared with ApproximatelyEqual. |
| `Graphics.ColorsApproximatelyEqualSymmetric` | Source/Lucky/Include/Lucky/Graphics/Color.hpp:31-40 | The colour comparison does not depend on the order of its arguments. |
| `Graphics.NearBlackEqualsBlack` | Source/Lucky/Include/Lucky/Graphics/Color.hpp:31-40 | A colour 0.00005 away from black in red differs from black, yet compares equal to it. |
| `Graphics.GraphicsDevice.ClearScreen` | Source/Lucky/Source/Graphics/GraphicsDevice.cpp:119-138 | An enabled scissor test is switched off around the clear and on again afterwards. The clear colour is sent and cached only when it is not approximately equal to the cached one. Otherwise the cache keeps its colour. Either way, the cached colour afterwards approximately equals the requested one. The clear is scissored exactly when OpenGL's test is on at that moment. When `scissorsEnabled` agrees with OpenGL beforehand, the clear is never scissored and the two still agree afterwards. |
| `Graphics.GraphicsDevice.SetBlendMode` | Source/Lucky/Source/Graphics/GraphicsDevice.cpp:140-171 | The call fails iff the mode is Invalid, and then the cache is unchanged. The cached mode is a no-op. Any other mode is configured and cached. |
| `Graphics.GraphicsDevice.EnableScissorsRectangle` | Source/Lucky/Source/Graphics/GraphicsDevice.cpp:173-189 | Enables the test and stores the rectangle. Its y becomes `screenHeight - y - height` on the screen and stays as given on a render target. |
| `Graphics.GraphicsDevice.DisableScissorsRectangle` | Source/Lucky/Source/Graphics/GraphicsDevice.cpp:191-195 | Clears `scissorsEnabled` while issuing glEnable, so the OpenGL scissor test stays on. The blend cache stays valid, so every later device call is still accepted; only the scissor flag and OpenGL disagree. |
| `Graphics.GraphicsDevice.DisableScissorsRectangleCorrected` | Source/Lucky/Source/Graphics/GraphicsDevice.cpp:191-195 | Corrected variant (see Findings): with glDisable, the flag and the OpenGL scissor test are both off and the cache stays valid. |
| `Graphics.GraphicsDevice.BindRenderTarget` | Source/Lucky/Source/Graphics/GraphicsDevice.cpp:202-214 | The texture's framebuffer becomes current, and `IsUsingRenderTarget` holds iff it differs from the default. With `setViewport`, the viewport becomes {0,0,width,height}. |
| `Graphics.GraphicsDevice.UnbindRenderTarget` | Source/Lucky/Source/Graphics/GraphicsDevice.cpp:216-225 | The default framebuffer becomes current and no render target is in use. With `resetViewport`, the viewport becomes the whole screen. |
| `Graphics.GraphicsDevice.ApplyShaderProgram` | Source/Lucky/Source/Graphics/GraphicsDevice.cpp:232-235 | Issues glUseProgram for the program; nothing cached changes. |
| `Graphics.GraphicsDevice.BeginFrame` | Source/Lucky/Source/Graphics/GraphicsDevice.cpp:237-240 | Resets the draw-call counter to 0 and changes nothing else. |
| `Graphics.GraphicsDevice.DrawPrimitives` | Source/Lucky/Source/Graphics/GraphicsDevice.cpp:246-284 | Issues one glDrawArrays with `VertexCount` vertices for the primitive type, and adds one to the draw-call counter. By `VertexCountIsExact` these vertices form exactly the requested number of primitives. |
| `Graphics.ScissorStaysOnAfterDisable` | Source/Lucky/Source/Graphics/GraphicsDevice.cpp:191-195 | Enable, disable as written, then clear: the clear runs with the scissor test on, although `scissorsEnabled` is false. |
| `Graphics.ScissorOffAfterDisable` | Source/Lucky/Source/Graphics/GraphicsDevice.cpp:191-195 | With the corrected disable, the same sequence clears the whole framebuffer. |
| `UVModes.And` | Source/Lucky/Include/Lucky/Graphics/BatchRenderer.hpp:21-24 | `&` gives the largest flag set contained in both operands. |
| `UVModes.Or` | Source/Lucky/Include/Lucky/Graphics/BatchRenderer.hpp:32-35 | `\|` gives the smallest flag set containing both operands. |
| `UVModes.NormalHasNoFlag` | Source/Lucky/Include/Lucky/Graphics/Types.hpp:16 | `HasFlag(Normal, f)` is false for every f. |
| `UVModes.NamedFlags` | Source/Lucky/Include/Lucky/Graphics/Types.hpp:17-19 | For the three named flags, `HasFlag(a \| b, a)` and `HasFlag(a \| b, b)` hold. `HasFlag(a, b)` holds iff a == b, and so does `HasFlag(a & b, a)`. |
| `UVModes.OrAndFlags` | Source/Lucky/Include/Lucky/Graphics/BatchRenderer.hpp:43-46 | A named flag is in `t \| u` iff it is in t or in u, and in `t & u` iff it is in both. |
| `UVModes.UVModeVariable.constructor` | Source/Lucky/Include/Lucky/Graphics/BatchRenderer.hpp:26-41 | The variable holds its initial value. |
| `UVModes.UVModeVariable.AndAssign` | Source/Lucky/Include/Lucky/Graphics/BatchRenderer.hpp:26-30 | `&=` stores `lhs & rhs` in the variable and returns the stored value. |
| `UVModes.UVModeVariable.OrAssign` | Source/Lucky/Include/Lucky/Graphics/BatchRenderer.hpp:37-41 | `\|=` stores `lhs \| rhs` in the variable and returns the stored value. |
| `BatchGeometry.FlipsPermute` | Source/Lucky/Source/Graphics/BatchRenderer.cpp:233-243 | Each flip only reorders the four corners: the multiset is unchanged. |
| `BatchGeometry.UVCornersArePermutation` | Source/Lucky/Source/Graphics/BatchRenderer.cpp:210-243 | Whatever the mode, the quad gets each corner of the region exactly once. The region is upright, or rotated with height along x. |
| `BatchGeometry.NormalCorners` | Source/Lucky/Source/Graphics/BatchRenderer.cpp:221-231 | With no flags, the corners are top-left, top-right, bottom-right and bottom-left of the source. |
| `BatchGeometry.BothFlipsSwapOpposites` | Source/Lucky/Source/Graphics/BatchRenderer.cpp:233-243 | Both flips together swap corner 0 with 2 and corner 1 with 3. |
| `BatchGeometry.FlipsAreInvolutions` | Source/Lucky/Source/Graphics/BatchRenderer.cpp:233-243 | Each flip undoes itself, and the two flips commute. |
| `BatchGeometry.QuadIsParallelogram` | Source/Lucky/Source/Graphics/BatchRenderer.cpp:245-299 | For any angle, the four screen corners form a parallelogram: the diagonals share a midpoint and opposite sides are equal. |
| `BatchGeometry.UnrotatedQuadIsBox` | Source/Lucky/Source/Graphics/BatchRenderer.cpp:248-293 | Unrotated, the quad is the destW x destH box whose `origin` point sits at `position`. |
| `BatchRendering.QuadTriangles` | Source/Lucky/Source/Graphics/BatchRenderer.cpp:154-157 | A stored quad is the triangles (0,1,2) and (0,2,3): slot 3 repeats corner 0 and slot 4 repeats corner 2. |
| `BatchRendering.QuadInBounds` | Source/Lucky/Source/Graphics/BatchRenderer.cpp:108-111 | With room for six vertices, a quad's six slots always lie inside the buffer. A flush before it never sees an empty batch. |
| `BatchRendering.QuadOverflowsSingleTriangleBuffer` | Source/Lucky/Source/Graphics/BatchRenderer.cpp:51-53 | A renderer the constructor builds for one triangle, after `Begin`, has a 3-slot vertex array and no pending vertex. The first quad's flush condition `activeVertices + 6 > maximumVertices` holds there, so it flushes an empty batch, which Flush's `activeVertices > 0` forbids. The quad's six stores would then end past the array. |
| `BatchRendering.BatchesStayWhole` | Source/Lucky/Source/Graphics/BatchRenderer.cpp:330-331 | Every batch handed to the device holds between 1 and `maximumVertices / 3` whole triangles. |
| `BatchRendering.BatchRenderer.constructor` | Source/Lucky/Source/Graphics/BatchRenderer.cpp:48-65 | Requires `maximumTriangles > 0`. Fixes `maximumVertices = 3 * maximumTriangles`, allocates that many vertex slots, and opens no batch. |
| `BatchRendering.BatchRenderer.Begin` | Source/Lucky/Source/Graphics/BatchRenderer.cpp:71-86 | Fails iff a batch is open, and then nothing changes. Otherwise it empties the buffer and opens the session with the given state, using the default program for a missing one. Any blend mode is accepted, Invalid included. |
| `BatchRendering.BatchRenderer.End` | Source/Lucky/Source/Graphics/BatchRenderer.cpp:88-101 | Requires a texture when the batch uses the default program. Requires an open batch to hold vertices, because Flush asserts `activeVertices > 0`; an empty Begin/End pair trips that assert in a debug build. Fails iff no batch is open or the flush fails on an Invalid blend mode; then no batch is handed over. Otherwise it hands the pending vertices to the device as one batch, drops texture and program, and closes the session. The submitted stream is unchanged. |
| `BatchRendering.BatchRenderer.Flush` | Source/Lucky/Source/Graphics/BatchRenderer.cpp:328-371 | Requires pending vertices, and a texture when the program is the default one, whose TextureSampler the flush binds. Fails iff the blend mode is Invalid (the device's `throw`), and then nothing is drawn. Otherwise it sets the blend mode, uses the program and draws exactly `activeVertices / 3` triangles. The pending vertices become one more batch and the counter returns to 0. |
| `BatchRendering.BatchRenderer.DrawPending` | Source/Lucky/Source/Graphics/BatchRenderer.cpp:351-371 | Once the blend mode is set: uses the program and draws exactly the pending vertices as one batch, adds one draw call, and empties the buffer; nothing else on the device changes. |
| `BatchRendering.BatchRenderer.PutQuad` | Source/Lucky/Source/Graphics/BatchRenderer.cpp:108-168 | Flushes exactly when the quad would not fit, then stores its six vertices at the end. Earlier slots are untouched and the submitted stream grows by the quad. Fails iff that flush meets an Invalid blend mode, and then nothing is stored. |
| `BatchRendering.BatchRenderer.StoreQuad` | Source/Lucky/Source/Graphics/BatchRenderer.cpp:123-168 | Six stores into free room: the pending vertices grow by the quad's six vertices and the count by 6. |
| `BatchRendering.BatchRenderer.BatchQuadUV` | Source/Lucky/Source/Graphics/BatchRenderer.cpp:103-169 | Appends the box quad from xy0 to xy1 with UVs uv0 to uv1 to the stream. A new batch is flushed iff `activeVertices + 6 > maximumVertices`. Afterwards the count is 6 or the old count plus 6. Fails iff the flush is needed and the blend mode is Invalid. |
| `BatchRendering.TexturedCorners` | Source/Lucky/Source/Graphics/BatchRenderer.cpp:181-231 | The four corners BatchQuad emits. The source rectangle or the whole texture is scaled to the destination size, and the UV corners are divided by the texture size. |
| `BatchRendering.BatchRenderer.BatchQuad` | Source/Lucky/Source/Graphics/BatchRenderer.cpp:171-302 | Appends the textured, scaled and rotated quad to the stream, with the same flush rule, count and failure as BatchQuadUV. |
| `BatchRendering.BatchRenderer.BatchTriangles` | Source/Lucky/Source/Graphics/BatchRenderer.cpp:304-326 | The submitted stream grows by exactly the first `3 * triangleCount` input vertices, in order. Earlier batches are kept and no triangle is split. With an Invalid blend mode it fails iff the triangles do not all fit in the free room; the triangles stored before that flush stay pending, as in the source. |
| `BatchRendering.BatchRenderer.PutTriangleWithFlush` | Source/Lucky/Source/Graphics/BatchRenderer.cpp:315-324 | Flushes exactly when the triangle would not fit, then appends its three vertices. Fails iff that flush meets an Invalid blend mode, and then nothing is stored. |
| `BatchRendering.BatchRenderer.PutTriangle` | Source/Lucky/Source/Graphics/BatchRenderer.cpp:320-324 | Three stores into free room: the count grows by 3 and the stream by the triangle. |
| `DebugDrawing.StrokeGeometry` | Source/Lucky/Source/Graphics/DebugDraw.cpp:55-56 | A stroke's vertices are the quad corners at its position, angle, scale and origin, in its colour (the white texture is 1x1). |
| `DebugDrawing.StrokeSamplesWholePixel` | Source/Lucky/Source/Graphics/DebugDraw.cpp:15-16 | Every stroke samples the white texture at UV corners (0,0), (1,0), (1,1), (0,1). |
| `DebugDrawing.Segments` | Source/Lucky/Source/Graphics/DebugDraw.cpp:67-85 | A closed list has one segment per point and an open list one fewer. |
| `DebugDrawing.SegmentAt` | Source/Lucky/Source/Graphics/DebugDraw.cpp:70-85 | Segment k runs from the point before target `first + k` (the last point for a closed list's first segment) to that target, both shifted by `offset`. |
| `DebugDrawing.SegmentsChain` | Source/Lucky/Source/Graphics/DebugDraw.cpp:67-85 | Consecutive segments join up. A closed shape ends where it starts. An open one runs from the first point to the last. |
| `DebugDrawing.AllLinesDrawn` | Source/Lucky/Source/Graphics/DebugDraw.cpp:81-85 | Once the loop has passed every target, the lines drawn are all the segments' strokes. |
| `DebugDrawing.ArrowStrokes` | Source/Lucky/Source/Graphics/DebugDraw.cpp:98-103 | An arrow is exactly three strokes: the shaft, then two head strokes. |
| `DebugDrawing.RectangleSegments` | Source/Lucky/Source/Graphics/DebugDraw.cpp:120-128 | A rectangle is exactly four sides. |
| `DebugDrawing.RectangleIsClosedOutline` | Source/Lucky/Source/Graphics/DebugDraw.cpp:120-128 | The four sides are the closed polyline through the corners: top-left, top-right, bottom-right, bottom-left and back. |
| `DebugDrawing.PointStrokes` | Source/Lucky/Source/Graphics/DebugDraw.cpp:136-144 | A point mark is exactly four strokes. |
| `DebugDrawing.LineQuadEdges` | Source/Lucky/Source/Graphics/BatchRenderer.cpp:248-299 | For a quad with origin (0, 0.5), the near edge is centred on the position and the far edge on the point `w` along the rotated axis. |
| `DebugDrawing.QuadSideEdge` | Source/Lucky/Source/Graphics/BatchRenderer.cpp:248-293 | The edge from corner 0 to corner 3 is the rotated vertical side, of height h. |
| `DebugDrawing.LineStrokeAnchoredAtPosition` | Source/Lucky/Source/Graphics/DebugDraw.cpp:55-56 | A line stroke's two near corners straddle its start point. |
| `DebugDrawing.LineStrokeSpansSegment` | Source/Lucky/Source/Graphics/DebugDraw.cpp:50-56 | With exact library functions, DrawLine's quad runs from `start` to `end`: the middles of its short edges are the two end points. |
| `DebugDrawing.StrokeWidth` | Source/Lucky/Source/Graphics/DebugDraw.cpp:55-56 | With sine and cosine on the unit circle, a stroke is drawn exactly as wide as its thickness. |
| `DebugDrawing.StrokesWidth` | Source/Lucky/Source/Graphics/DebugDraw.cpp:81-85 | Strokes of one thickness are all drawn that wide. |
| `DebugDrawing.RectangleIgnoresThickness` | Source/Lucky/Source/Graphics/DebugDraw.cpp:125-128 | As written, the four sides of DrawRectangle are one unit wide, whatever thickness is passed. |
| `DebugDrawing.RectangleHonoursThickness` | Source/Lucky/Source/Graphics/DebugDraw.cpp:115-129 | With the thickness passed on, each side is as wide as asked. |
| `DebugDrawing.FilledRectangleIsCentred` | Source/Lucky/Source/Graphics/DebugDraw.cpp:111-112 | A filled rectangle is centred on its position. Unrotated, it is the axis-aligned box of its dimensions around that point. |
| `DebugDrawing.PointMarkIsCentred` | Source/Lucky/Source/Graphics/DebugDraw.cpp:136-144 | With the library's sine and cosine at 0, a right angle and the diagonals, all four strokes of a point mark are centred on the point. |
| `DebugDrawing.LineStrokeCentre` | Source/Lucky/Source/Graphics/DebugDraw.cpp:55-56 | A line stroke's centre lies half its length along its direction from its position. |
| `DebugDrawing.DebugDraw.constructor` | Source/Lucky/Source/Graphics/DebugDraw.cpp:11-18 | A fresh renderer for 1000 triangles on the device, the identity transform, and no frame open. |
| `DebugDrawing.DebugDraw.SetTransform` | Source/Lucky/Source/Graphics/DebugDraw.cpp:24-27 | Stores the transform for the next frame. |
| `DebugDrawing.DebugDraw.BeginFrame` | Source/Lucky/Source/Graphics/DebugDraw.cpp:29-35 | Opens the renderer's batch with Alpha blending, the white texture and the stored transform, and sets `beginCalled`. Fails iff a frame is already open. |
| `DebugDrawing.DebugDraw.EndFrame` | Source/Lucky/Source/Graphics/DebugDraw.cpp:37-43 | Ends the batch, handing its pending vertices to the device, and clears `beginCalled`. Requires an open frame to have drawn something, because the renderer's Flush asserts `activeVertices > 0`; an empty debug frame trips that assert in a debug build. Fails iff no frame is open. |
| `DebugDrawing.DebugDraw.DrawStroke` | Source/Lucky/Source/Graphics/DebugDraw.cpp:55-56 | One BatchQuad of the white texture: the stream grows by exactly that stroke's quad. |
| `DebugDrawing.DebugDraw.DrawLine` | Source/Lucky/Source/Graphics/DebugDraw.cpp:45-57 | Appends exactly one quad: anchored at `start` with origin (0, 0.5), as long as the line, as wide as the thickness, at the line's angle. |
| `DebugDrawing.DebugDraw.DrawLineList` | Source/Lucky/Source/Graphics/DebugDraw.cpp:59-86 | Requires `0 < pointCount`. The stream grows by the line strokes of the list's segments (closed or open, shifted by `offset`), in order. |
| `DebugDrawing.DebugDraw.DrawSegmentTo` | Source/Lucky/Source/Graphics/DebugDraw.cpp:81-85 | One loop pass: one more segment of the list is drawn, and the next start point is the point just reached. |
| `DebugDrawing.DebugDraw.DrawArrow` | Source/Lucky/Source/Graphics/DebugDraw.cpp:88-104 | The stream grows by exactly the shaft and the two head strokes, in that order. |
| `DebugDrawing.DebugDraw.DrawFilledRectangle` | Source/Lucky/Source/Graphics/DebugDraw.cpp:106-113 | The stream grows by exactly one quad, with origin (0.5, 0.5), the dimensions as scale and the rotation. |
| `DebugDrawing.DebugDraw.DrawRectangle` | Source/Lucky/Source/Graphics/DebugDraw.cpp:115-129 | The stream grows by the four side lines of thickness 1, in outline order. |
| `DebugDrawing.DebugDraw.DrawRectangleCorrected` | Source/Lucky/Source/Graphics/DebugDraw.cpp:115-129 | Corrected variant (see Findings): the stream grows by the four side lines of the given thickness, in outline order. |
| `DebugDrawing.DebugDraw.DrawOutline` | Source/Lucky/Source/Graphics/DebugDraw.cpp:125-128 | The four DrawLine calls of a rectangle append the four sides' strokes in order. |
| `DebugDrawing.DebugDraw.DrawPoint` | Source/Lucky/Source/Graphics/DebugDraw.cpp:131-145 | The stream grows by exactly the four point-mark strokes: horizontal, vertical and the two diagonals. |
| `Bloom.HalvedIsDivision` | Source/Lucky/Source/Graphics/BloomEffect.cpp:117-118 | Halving k + 1 times with integer division is dividing by 2^(k+1). |
| `Bloom.LevelCountFromShape` | Source/Lucky/Source/Graphics/BloomEffect.cpp:115-127 | Counting from level k, the loop produces between k + 1 and 7 levels. Every level before the last has both sides above 1. It stops short of 7 only at a level with a side of 1. |
| `Bloom.MipChainShape` | Source/Lucky/Source/Graphics/BloomEffect.cpp:115-127 | For width and height >= 2, the chain has 1 to 7 levels. Level k is (W / 2^(k+1), H / 2^(k+1)), at least 1x1. All but the last level have both sides above 1. A shorter chain ends at the first level with a side of 1. |
| `Bloom.ChainFramebuffers` | Source/Lucky/Source/Graphics/BloomEffect.cpp:120-121 | Every level is a render target with a framebuffer of its own, distinct from the threshold texture's. |
| `Bloom.BuildChain` | Source/Lucky/Source/Graphics/BloomEffect.cpp:115-127 | The loop produces exactly the chain: one render target per level, of the halved size, in order. |
| `Bloom.DownSteps` | Source/Lucky/Source/Graphics/BloomEffect.cpp:167-183 | The down-sample loop takes two steps per level: a draw and an unbind. |
| `Bloom.DownPassAt` | Source/Lucky/Source/Graphics/BloomEffect.cpp:167-183 | Pass k draws level k from level k - 1 (the threshold texture for k = 0) with BlendMode::None, then rebinds the default framebuffer. |
| `Bloom.UpPassAt` | Source/Lucky/Source/Graphics/BloomEffect.cpp:186-201 | There are max(n - 2, 0) up-sample passes. The j-th reads level n - 2 - j and adds it onto level n - 3 - j. |
| `Bloom.SmallestLevelNeverUpSampled` | Source/Lucky/Source/Graphics/BloomEffect.cpp:186-201 | No up-sample pass reads the smallest level. |
| `Bloom.CompositeQuads` | Source/Lucky/Source/Graphics/BloomEffect.cpp:203-216 | The composite hands exactly two quads to the device: the input's, then level 0 stretched over the output. |
| `Bloom.BloomEffect.constructor` | Source/Lucky/Source/Graphics/BloomEffect.cpp:109-143 | A full-size threshold render target, then the mip chain of `LevelCount` levels, each with the halved size. |
| `Bloom.BloomEffect.BindTarget` | Source/Lucky/Source/Graphics/BloomEffect.cpp:158 | Binds a render target with its viewport; the renderer stays closed. |
| `Bloom.BloomEffect.UnbindTarget` | Source/Lucky/Source/Graphics/BloomEffect.cpp:180 | Rebinds the default framebuffer and records the unbind step. |
| `Bloom.BloomEffect.ClearTargetTo` | Source/Lucky/Source/Graphics/BloomEffect.cpp:204 | Clears the bound framebuffer and records the clear step. |
| `Bloom.BloomEffect.QuadPass` | Source/Lucky/Source/Graphics/BloomEffect.cpp:159-163 | Runs one Begin/BatchQuadUV/End pair into the bound framebuffer. It hands exactly one quad to the device and leaves the renderer closed. |
| `Bloom.BloomEffect.TexturePass` | Source/Lucky/Source/Graphics/BloomEffect.cpp:206-209 | Runs one Begin/BatchQuad/End pair of the input with the default program: one quad, renderer closed. |
| `Bloom.BloomEffect.ThresholdPass` | Source/Lucky/Source/Graphics/BloomEffect.cpp:158-163 | Draws the input into the threshold texture at the output's size, without blending. |
| `Bloom.BloomEffect.DownPass` | Source/Lucky/Source/Graphics/BloomEffect.cpp:169-182 | One down-sample iteration extends the schedule and the batches by pass k. |
| `Bloom.BloomEffect.DownSample` | Source/Lucky/Source/Graphics/BloomEffect.cpp:165-183 | The loop appends all down-sample passes in increasing level order, each drawn from the level before. |
| `Bloom.BloomEffect.UpPassAtLevel` | Source/Lucky/Source/Graphics/BloomEffect.cpp:188-200 | One up-sample iteration extends the schedule and the batches by the pass at `level`. |
| `Bloom.BloomEffect.UpSample` | Source/Lucky/Source/Graphics/BloomEffect.cpp:186-201 | The loop appends the up-sample passes for levels n - 2 down to 1. |
| `Bloom.BloomEffect.Composite` | Source/Lucky/Source/Graphics/BloomEffect.cpp:203-216 | Binds and clears `output` to black, adds `input`, adds level 0 with the blur program, and unbinds. |
| `Bloom.BloomEffect.ApplyEffect` | Source/Lucky/Source/Graphics/BloomEffect.cpp:149-217 | Runs the threshold pass, down-sample passes, up-sample passes and composite, in that order. Each is a closed Begin/End pair that hands its one quad to the device. It ends on the default framebuffer with the renderer closed. |
| `Audio.Min` | Source/Lucky/Source/Audio/AudioPlayer.cpp:60 | The smaller of two counts. |
| `Audio.ChunksDeliver` | Source/Lucky/Source/Audio/AudioPlayer.cpp:56-97 | The SDL puts of one request deliver `Delivered` frames: all requested frames when looping, otherwise at most those left. Every chunk is non-empty and inside the sound. The first starts at the cursor and later ones at frame 0. All carry the effective volume. |
| `Audio.ChunksAreTheNextFrames` | Source/Lucky/Source/Audio/AudioPlayer.cpp:85-90 | The frames delivered are exactly the next frames from the cursor, wrapping modulo the frame count. |
| `Audio.WholeFramesFit` | Source/Lucky/Source/Audio/AudioPlayer.cpp:58-65 | The bytes of at most the whole frames in a request fit in the request and are a multiple of 2 x channels. |
| `Audio.SoundInstance.constructor` | Source/Lucky/Source/Audio/AudioPlayer.cpp:284-292 | A new instance sits at frame 0, Paused or Playing as asked. |
| `Audio.SoundInstance.PutSamplesSDL` | Source/Lucky/Source/Audio/AudioPlayer.cpp:56-97 | Fails iff frames are due but a volume lookup finds no group. It puts exactly the `Chunks` of the request and returns their byte count, at most the request and a multiple of 2 x channels. The cursor advances by the frames put, modulo the frame count when looping. |
| `Audio.AudioPlayer.GetGroupDeviceId` | Source/Lucky/Source/Audio/AudioPlayer.cpp:251-261 | The group's logical device id; absent iff the group is unknown. |
| `Audio.AudioPlayer.GetGroupVolume` | Source/Lucky/Source/Audio/AudioPlayer.cpp:263-273 | The group's volume; absent iff the group is unknown. |
| `Audio.AudioPlayer.EffectiveVolume` | Source/Lucky/Source/Audio/AudioPlayer.cpp:67-69 | The minimum of the group's volume and "default"'s volume; absent iff either group is unknown. |
| `Audio.AudioPlayer.constructor` | Source/Lucky/Source/Audio/AudioPlayer.cpp:126-133 | The next reference is 1, no instances exist, and the group "default" is open on its device with the default settings. |
| `Audio.AudioPlayer.CreateSoundGroup` | Source/Lucky/Source/Audio/AudioPlayer.cpp:151-197 | A new name is registered iff the open returns a non-zero id; otherwise the call fails and nothing changes. An existing name always gets the new volume. On a device change it opens the new device, rebinds exactly that group's playing streams, closes the old device and records the new ids. |
| `Audio.AudioPlayer.RebindGroup` | Source/Lucky/Source/Audio/AudioPlayer.cpp:166-173 | Exactly the bound streams of the group move to the new device; every other binding is kept. |
| `Audio.AudioPlayer.DestroySoundGroup` | Source/Lucky/Source/Audio/AudioPlayer.cpp:199-209 | Removes exactly the group's instances, then removes the group and closes its device if it exists. |
| `Audio.AudioPlayer.StopGroup` | Source/Lucky/Source/Audio/AudioPlayer.cpp:211-227 | Removes exactly the instances tagged with the group and their bindings; every other instance and binding is unchanged. |
| `Audio.AudioPlayer.PauseGroup` | Source/Lucky/Source/Audio/AudioPlayer.cpp:229-238 | Every instance of the group is Paused and unbound. Every other instance keeps its state and binding, and no cursor moves. |
| `Audio.AudioPlayer.PauseMember` | Source/Lucky/Source/Audio/AudioPlayer.cpp:233-236 | One loop pass: one more member of the group is paused, and the instances already handled stay as they are. |
| `Audio.AudioPlayer.ResumeGroup` | Source/Lucky/Source/Audio/AudioPlayer.cpp:240-249 | Every instance of the group is Playing and bound to the group's current device. Every other instance keeps its state, and existing bindings are unchanged. |
| `Audio.AudioPlayer.Play` | Source/Lucky/Source/Audio/AudioPlayer.cpp:275-320 | An unknown group is first created with the default settings; the call fails iff that open fails. The new instance gets the current counter, which then increments. It is Paused or Playing as asked, starts at frame 0, and is bound to the group's device only when Playing. The device log grows by the new group's open and by nothing else. |
| `Audio.AudioPlayer.Register` | Source/Lucky/Source/Audio/AudioPlayer.cpp:284-319 | Registers a fresh instance under the next reference, leaves every other instance alone, and binds it only when not paused. |
| `Audio.AudioPlayer.Pause` | Source/Lucky/Source/Audio/AudioPlayer.cpp:322-333 | A known playing instance becomes Paused and unbound. An unknown or already paused reference changes nothing, and no other instance changes. |
| `Audio.AudioPlayer.Resume` | Source/Lucky/Source/Audio/AudioPlayer.cpp:335-346 | A known paused instance becomes Playing, bound to its group's current logical device. Otherwise nothing changes, and no other instance changes. |
| `Audio.AudioPlayer.Stop` | Source/Lucky/Source/Audio/AudioPlayer.cpp:348-360 | Removes the instance and its binding if present; nothing else changes. |
| `Audio.AudioPlayer.AudioCallback` | Source/Lucky/Source/Audio/AudioPlayer.cpp:362-371 | Forwards the request to the instance: it returns at most the bytes asked for, whole frames only, and the instance's play state is unchanged. |
| `Audio.RefsNeverReused` | Source/Lucky/Source/Audio/AudioPlayer.cpp:318-319 | Play, Stop, Play: the second reference is larger than the first, and the stopped one is gone. |
| `FileSystem.Find` | Source/Lucky/Source/Utility/FileSystem.cpp:15 | `find` returns an occurrence of the delimiter at or after `start`, if any. |
| `FileSystem.FindIsFirst` | Source/Lucky/Source/Utility/FileSystem.cpp:15 | That occurrence is the first one, and npos means there is none. |
| `FileSystem.SplitInto` | Source/Lucky/Source/Utility/FileSystem.cpp:8-27 | Requires a non-empty delimiter. Appends the non-empty pieces of the input to the caller's list, keeping what was there. |
| `FileSystem.Split` | Source/Lucky/Source/Utility/FileSystem.cpp:29-34 | Returns the non-empty pieces in a new list; none is empty and none contains the delimiter. |
| `FileSystem.PieceHasNoDelimiter` | Source/Lucky/Source/Utility/FileSystem.cpp:15-19 | The text up to the next delimiter does not contain the delimiter. |
| `FileSystem.PiecesAreClean` | Source/Lucky/Source/Utility/FileSystem.cpp:13-26 | No piece Split keeps is empty or contains the delimiter. |
| `FileSystem.SplitIsNonEmptyFields` | Source/Lucky/Source/Utility/FileSystem.cpp:13-26 | Split keeps exactly the non-empty delimiter-separated fields, in order. |
| `FileSystem.JoinFields` | Source/Lucky/Source/Utility/FileSystem.cpp:13-26 | The fields joined with the delimiter give back the input. |
| `FileSystem.SplitJoinRoundTrip` | Source/Lucky/Source/Utility/FileSystem.cpp:13-26 | For an input with no empty field, joining Split's pieces with the delimiter gives back the input. |
| `FileSystem.GetPathName` | Source/Lucky/Source/Utility/FileSystem.cpp:36-49 | Returns every "/"-piece but the last, each followed by "/". |
| `FileSystem.PathNameShape` | Source/Lucky/Source/Utility/FileSystem.cpp:39-48 | The directory part is empty or ends in "/", does not start with "/", and never holds "//". |
| `FileSystem.PathNameThenFileName` | Source/Lucky/Source/Utility/FileSystem.cpp:36-49 | For a path with no empty component, the directory part followed by the last component is the path. |
| `FileSystem.GetFileExtension` | Source/Lucky/Source/Utility/FileSystem.cpp:51-59 | Returns the text after the last '.', which holds no '.'; returns "" when there is no '.'. |
| `FileSystem.CancelMeaning` | Source/Lucky/Source/Utility/FileSystem.cpp:69-80 | The ".." loop drops the same number of components from the end of the first list and the start of the second. Every component dropped from the second is "..". It stops only when no further pair cancels. |
| `FileSystem.CombinePaths` | Source/Lucky/Source/Utility/FileSystem.cpp:64-95 | Requires a non-empty combined list. Returns the remaining components of both paths, after ".." cancellation, joined by single "/". |
| `FileSystem.CombinePathsShape` | Source/Lucky/Source/Utility/FileSystem.cpp:82-92 | The combined path is non-empty, with no leading, trailing or doubled "/". |
| `StateMachines.StateMachine.constructor` | Source/Lucky/Include/Lucky/Utility/StateMachine.hpp:46-49 | No states, no current state, both type ids `nullptr_t`. |
| `StateMachines.StateMachine.Add` | Source/Lucky/Include/Lucky/Utility/StateMachine.hpp:51-59 | Registers the type if it is absent and keeps an existing entry, even a null one. The current state is unchanged. |
| `StateMachines.StateMachine.SetState` | Source/Lucky/Include/Lucky/Utility/StateMachine.hpp:61-78 | Requires the target to be registered unless the call returns early. The lookup inserts a null entry for an unknown type. Re-entering the current state without restart changes nothing. Otherwise the old state's Exit (if any) runs before the new state's Enter, and previous = old current type, current = new type. |
| `StateMachines.StateMachine.SetStateWithoutInsert` | Source/Lucky/Include/Lucky/Utility/StateMachine.hpp:61-78 | The same transition with a lookup that leaves the registry unchanged. |
| `StateMachines.StateMachine.Update` | Source/Lucky/Include/Lucky/Utility/StateMachine.hpp:80-88 | No current state: nothing happens. Otherwise BeforeUpdate, Update(delta) and AfterUpdate run on it once each, in that order. |
| `StateMachines.TargetOf` | Source/Lucky/Include/Lucky/Utility/StateMachine.hpp:65 | `states[stateId]` is the registered state if there is one, and null otherwise. |
| `StateMachines.ExitHook` | Source/Lucky/Include/Lucky/Utility/StateMachine.hpp:70-71 | Exit runs iff there is a current state. |
| `StateMachines.SetStateBeforeAdd` | Source/Lucky/Include/Lucky/Utility/StateMachine.hpp:61-65 | SetState on a type not yet added, then Add: the null entry stays and the type can never be registered. |
| `StateMachines.SetStateWithoutInsertBeforeAdd` | Source/Lucky/Include/Lucky/Utility/StateMachine.hpp:51-78 | With a non-inserting lookup, the same sequence registers the type, and it can then be entered. |
| `StateMachines.TwoTransitions` | Source/Lucky/Include/Lucky/Utility/StateMachine.hpp:67-77 | Two transitions give the hooks Enter a, Exit a, Enter b, with previous = a and current = b. |
| `StateMachines.Reenter` | Source/Lucky/Include/Lucky/Utility/StateMachine.hpp:67-77 | Re-entering without restart calls no hook; with restart it runs Exit then Enter and records the state as previous. |
| `MathHelpers.ApproximatelyEqual` | Source/Lucky/Source/Math/MathHelpers.cpp:17-27 | Equal values compare equal. For magnitudes up to 1 the test is an absolute tolerance of 0.0001. Beyond that, it is bounded by the tolerance relative to the magnitudes. |
| `MathHelpers.ApproximatelyEqualSymmetric` | Source/Lucky/Source/Math/MathHelpers.cpp:17-27 | The test does not depend on the order of its arguments. |
| `MathHelpers.ApproximatelyEqualNotTransitive` | Source/Lucky/Source/Math/MathHelpers.cpp:17-27 | 0 is close to 0.00008 and 0.00008 is close to 0.00016, but 0 is not close to 0.00016. |
| `MathHelpers.Lerp` | Source/Lucky/Include/Lucky/Math/MathHelpers.hpp:10-14 | Lerp at 0 is v0, at 1 is v1, and constant when v0 == v1. |
| `MathHelpers.LerpStep` | Source/Lucky/Include/Lucky/Math/MathHelpers.hpp:10-14 | Each unit step of t moves the result by exactly v1 - v0. |
| `MathHelpers.Sign` | Source/Lucky/Include/Lucky/Math/MathHelpers.hpp:18-22 | 1, -1 or 0 exactly when the argument is positive, negative or zero; `Sign(v) * v == abs(v)`. |
| `MathHelpers.Clamp` | Source/Lucky/Include/Lucky/Math/MathHelpers.hpp:24-29 | In [lo, hi] when lo <= hi, v when v is already in range, lo below the range, hi above it, and lo when lo > hi. |
| `MathHelpers.MoveTowards` | Source/Lucky/Include/Lucky/Math/MathHelpers.hpp:31-44 | With delta >= 0 the result never overshoots. It lies between current and target, moves by at most delta, reaches target when within delta, and moves by exactly delta otherwise. `MoveTowards(c, c, d) == c`. |
| `MathHelpers.MoveTowardsConverges` | Source/Lucky/Include/Lucky/Math/MathHelpers.hpp:31-44 | n repeated steps reach the target once n x delta covers the distance. |
| `Random.GenerateRandom` | Source/Lucky/Include/Lucky/Math/Random.hpp:16-25 | With uint32 wrap-around, the modulus is zero iff the range spans all 2^32 values. Otherwise the result lies in [lower, upper]. |
| `Random.WrapsOnlyAtFullWidth` | Source/Lucky/Include/Lucky/Math/Random.hpp:22-23 | Reduction modulo 2^32 changes nothing below 2^32 and sends 2^32 to 0. |
| `Random.GenerateRandomCorrected` | Source/Lucky/Include/Lucky/Math/Random.hpp:16-25 | Corrected variant (see Findings): the result lies in [lower, upper] and is lower plus the noise modulo the number of values in the range. |
| `Random.AsWrittenAgreesBelowFullWidth` | Source/Lucky/Include/Lucky/Math/Random.hpp:22-24 | Below full width, the code as written computes exactly the intended value. |
| `Random.FullInt32RangeDividesByZero` | Source/Lucky/Include/Lucky/Math/Random.hpp:22-23 | The full int32 range makes the code as written take a modulus of zero. |
| `Random.TwoValueRange` | Source/Lucky/Include/Lucky/Math/Random.hpp:22-24 | For a two-value range, the result is the lower bound iff the noise is even. |

## Left out

- OpenGL and SDL side effects are recorded, not performed.
  - OpenGL calls go to the device's ghost log.
  - SDL device opens and closes, and stream bindings, are ghost state of the audio player.
  - Values SDL returns are parameters: the logical device id an open returns, and the window size
    and default framebuffer the device constructor reads.
- Shader compilation and uniforms, texture upload, vertex-buffer upload and `glBindVertexArray`
  are not modelled. Programs and textures are ids.
  - ShaderProgram.cpp, Texture.cpp and VertexBuffer.cpp are not part of this model.
  - Vertex.hpp and MathConstants.hpp are not part of this model.
- Floating point is modelled as `real`, with no rounding.
  - The library's sin, cos, atan2 and sqrt are opaque functions passed to the renderer (`Trig`).
  - Lemmas about rotated geometry state their assumptions on these functions explicitly.
  - `glm::normalize` of a zero vector, which gives NaNs in the source, keeps the vector instead.
  - `MathConstants::Pi` is approximated by a decimal constant.
- Flush's projection matrix is not modelled: the glm::ortho and its y flip, the product with the
  transform, and the TextureSampler and ProjectionMatrix uniforms. The transform is stored only.
- The textures of `Begin` are `Option` values.
  - A missing texture is an error wherever the source dereferences it. `BatchQuad` requires one.
    So does every method that can flush while the batch uses the default program, whose fragment
    shader declares TextureSampler.
  - A custom program that declares TextureSampler also dereferences a missing texture in the
    source. The model does not know a program's uniforms, so it does not exclude that case.
  - Begin's default arguments (no shader, identity transform) are passed explicitly.
- BatchQuadUV and BatchTriangles carry "todo: check batchStarted" and do not check it. The model
  requires an open batch, as Flush needs a program.
- `BatchRenderer::BatchStarted` is the predicate `BatchStarted`; it has no contract to state.
- `BatchRendering.BatchRenderer.BatchQuadUV` and `BatchRendering.BatchRenderer.BatchQuad` require
  `maximumVertices >= 6`. The source accepts a one-triangle renderer, on which a quad overflows
  the buffer (see Findings).
- `activeVertices` is left uninitialised by the source's constructor until the first Begin. The
  model starts it at 0.
- `GraphicsDevice::BindTexture`, `EndFrame` (empty) and the destructors of every class are not
  modelled.
  - The vsync switch and GL loader of the device constructor are not modelled either.
  - Nor is the `default` case of DrawPrimitives' switch, since the model's primitive type has
    exactly the five cases the switch handles.
- `Graphics.GraphicsDevice.constructor` caches PremultipliedAlpha directly. The source first sets
  the cache to an invalid value so that SetBlendMode always configures; the resulting log and
  cache are the same.
- Integer widths: the int and uint32 counters of the renderer and audio player are unbounded.
  - This covers the next reference, frame and byte counts, and `maximumTriangles * 3`.
  - It also covers `DrawPrimitives`' `int vertexCount`, such as `primitiveCount * 3`, which can
    overflow for a large uint32 `primitiveCount`.
  - Sizes in the bloom chain are assumed at least 2, so no halved size wraps through uint32.
- `MathHelpers.Lerp` does not model signed overflow: `v0 + t * (v1 - v0)` at `int` can overflow,
  which is undefined behaviour in C++. The model computes it in unbounded integers.
- `MathHelpers.MoveTowards` does not model signed overflow of `current + delta` and
  `current - delta` at `int`, which is undefined behaviour in C++. The model computes them in
  unbounded integers.
- `Bloom.BloomEffect.constructor` requires width and height >= 2, because Texture asserts a
  positive size and a width or height of 1 would halve to 0.
- `Bloom.BloomEffect.constructor` does not model how render-target framebuffer ids are chosen.
  It takes them as consecutive ids from a parameter, and the shader program ids are parameters.
- Bloom's shader sources are not modelled, nor are the uniforms set before each pass: the
  threshold from `brightnessThreshold`, the source resolution, and the filter radius
  `blurFilterRadius`. The schedule records which program each pass uses.
- `Bloom.BloomEffect.ApplyEffect` requires that the batch renderer draws on the effect's own
  device, is not inside a Begin/End pair and has room for a quad. The source assumes all three.
- `Audio.SoundInstance.PutSamplesSDL` does not model the sample data and the volume scaling, with
  its `ApproximatelyEqual` shortcut. Each SDL put is recorded as a `Chunk` of frame indices, plus
  the volume it would be scaled by.
- `Audio.SoundInstance.PutSamplesSDL` takes the request as a natural number; a negative `int`
  request is not modelled. It requires at least one channel, since the source divides by the
  channel count.
- `Audio.AudioPlayer.AudioCallback` states only the bounds and the unchanged state. The exact
  chunks are stated by `PutSamplesSDL`, which it calls. The callback runs on SDL's audio thread;
  concurrency with the rest of the player is not modelled.
- `StreamInstance::PutSamplesSDL` has no body and returns no value, so its behaviour is undefined
  and it is not modelled. Stream.cpp and Sound.cpp (the decoders) are not part of this model.
- `Audio.AudioPlayer.constructor` requires the open of the default device to succeed (a non-zero
  id). The source terminates otherwise.
- Audio streams and devices:
  - `SDL_CreateAudioStream` failing (a null stream) is not modelled; a stream is identified with
    its instance.
  - The open of the new device on CreateSoundGroup's device-change path is not checked in the
    source, and its id is recorded as returned.
- `Audio.AudioPlayer.CreateSoundGroup` states no Fail case for an existing group, matching the
  source: only a new group's failed open throws.
- The order in which the group loops visit `std::map` entries is not modelled. The loops pick any
  remaining key; each iteration touches only its own instance, so the result is the same.
- AudioPlayer.hpp declares an older interface. The model follows AudioPlayer.cpp.
- `Audio.AudioPlayer.Play` drops the source's `audioCallback` argument. The source stores it in the
  instance and never calls it.
- `FileSystem.SplitInto` requires a non-empty delimiter. With "", `find` returns `start` forever
  and the source loops without end.
- `FileSystem.CombinePaths` requires a non-empty combined list. The source indexes `size() - 1`
  of an empty vector otherwise.
- `ReadFile` (file I/O) is not modelled.
- `StateMachines.StateMachine.SetState` requires the target to be registered unless the call
  returns early. Otherwise the source calls Enter through a null pointer.
  - State objects, their constructor arguments, `Setup` and the target pointer are represented by
    a registry entry (`Holds`).
  - The hooks are recorded in a trace, not run.
- MathHelpers' templates are instantiated at `int` only. `ApproximatelyEqual` is modelled on
  `real` at its default tolerance, as the colour comparison uses it. InverseLerp, FindAngle and
  WorldToLocal are not part of this model.
- `DebugDrawing.DebugDraw.DrawArrow` takes the arrow head's length and angle as arguments. The
  header's defaults are the constants `DefaultArrowHeadLength` and `DefaultArrowHeadAngle`, and a
  caller passes them explicitly.
- Random:
  - `SquirrelNoise5` is the function parameter `noise`, so determinism holds by construction.
  - The floating-point overload of `GenerateRandom` is not modelled.
  - The bounds are treated as values of a 32-bit type.

## Findings

| source | as written | input that shows it | evidently intended | confidence | as-written member | corrected member |
|---|---|---|---|---|---|---|
| Source/Lucky/Source/Graphics/GraphicsDevice.cpp:191-195 | `DisableScissorsRectangle` calls `glEnable(GL_SCISSOR_TEST)` and clears `scissorsEnabled`. | `EnableScissorsRectangle(r)`, `DisableScissorsRectangle()`, `ClearScreen(c)`: the clear runs with the scissor test on and clears only `r`, while the cache says the test is off. | `glDisable(GL_SCISSOR_TEST)`, so the cache and OpenGL agree. | not executed | `Graphics.ScissorStaysOnAfterDisable` | `Graphics.ScissorOffAfterDisable` |
| Source/Lucky/Include/Lucky/Math/Random.hpp:22-23 | `rangeSize + 1` is computed in uint32. For `T = int32_t` the subtraction `upper - lower` is itself an `int` overflow (undefined behaviour) beyond `INT32_MAX`; the model takes the value it wraps to modulo 2^32. | `GenerateRandom(p, s, INT32_MIN, INT32_MAX)`: `rangeSize + 1` wraps to 0 and `% 0` is undefined. | The modulus is the number of values in the range; the full 32-bit range needs a special case. | not executed | `Random.FullInt32RangeDividesByZero` | `Random.GenerateRandomCorrected` |
| Source/Lucky/Source/Graphics/DebugDraw.cpp:125-128 | `DrawRectangle` takes a thickness but calls `DrawLine` without it. | `DrawRectangle(p, d, c, 5)`: every side is drawn one unit wide. | Pass `thickness` to the four `DrawLine` calls. | not executed | `DebugDrawing.RectangleIgnoresThickness` | `DebugDrawing.RectangleHonoursThickness` |
| Source/Lucky/Source/Graphics/BatchRenderer.cpp:51-53 | The constructor asserts only `maximumTriangles > 0`. | `BatchRenderer(device, 1)`, then `Begin` and `BatchQuadUV`: 0 + 6 > 3, so an empty batch is flushed (which asserts) and six vertices are written into three slots. | Require room for a quad (`maximumTriangles >= 2`), under which every quad lands inside the buffer. | not executed | `BatchRendering.QuadOverflowsSingleTriangleBuffer` | `BatchRendering.QuadInBounds` |
| Source/Lucky/Include/Lucky/Utility/StateMachine.hpp:61-65 | `SetState` looks the type up with `states[stateId]`, which inserts a null entry for a type never added, and `Add` uses `emplace`, which keeps it. | `SetState<A>()` before `Add<A>()`: `A` keeps a null entry for good, so every later `SetState<A>()` either does nothing or calls `Enter` through null. | A lookup that does not insert (`find`), so a later `Add` registers the state. | not executed | `StateMachines.SetStateBeforeAdd` | `StateMachines.SetStateWithoutInsertBeforeAdd` |
