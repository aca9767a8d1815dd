/** BloomEffect.cpp: the chain of down-sample render targets the constructor allocates, and the
    order of the render passes ApplyEffect runs through the batch renderer. The shaders, their
    uniforms and the filtering they do are not part of this model. */
module Bloom {
  import opened Wrappers
  import opened Graphics
  import opened UVModes
  import opened BatchGeometry
  import opened BatchRendering

  /** The most levels the down-sample chain may have. */
  const DownSampleLevels: nat := 7

  /** One side of level k: the input side halved k + 1 times with integer division. */
  function Halved(side: int, k: nat): int
  {
    if k == 0 then side / 2 else Halved(side, k - 1) / 2
  }

  /** The number of levels, counting from level `k`: the chain ends after the first level with a
      side of 1, and after level 6 at the latest. */
  function LevelCountFrom(width: int, height: int, k: nat): nat
    requires k < DownSampleLevels
    decreases DownSampleLevels - k
  {
    if k == DownSampleLevels - 1 || Halved(width, k) == 1 || Halved(height, k) == 1 then k + 1
    else LevelCountFrom(width, height, k + 1)
  }

  function LevelCount(width: int, height: int): nat
  {
    LevelCountFrom(width, height, 0)
  }

  /** Level k of the chain: a render target of the halved size, on the framebuffer allocated k + 1
      places after the threshold texture's. */
  function LevelTexture(width: int, height: int, firstFramebuffer: nat, k: nat): TextureInfo
  {
    TextureInfo(RenderTarget, Halved(width, k), Halved(height, k), firstFramebuffer + 1 + k)
  }

  function Pow2(n: nat): (r: nat)
    ensures r >= 1
  {
    if n == 0 then 1 else 2 * Pow2(n - 1)
  }

  lemma MulAtLeast(x: nat, d: nat)
    requires x >= 1
    ensures x * d >= d
  {
  }

  lemma DivideUniquely(a: nat, d: nat, q: nat, r: nat)
    requires d > 0 && a == q * d + r && r < d
    ensures a / d == q
  {
    var q', r' := a / d, a % d;
    assert a == q' * d + r' && 0 <= r' < d;
    if q' < q {
      MulAtLeast(q - q', d);
    } else if q' > q {
      MulAtLeast(q' - q, d);
    }
  }

  lemma Regroup(q2: nat, r2: nat, p: nat, r: nat)
    ensures (2 * q2 + r2) * p + r == q2 * (2 * p) + (r2 * p + r)
  {
  }

  /** Halving a quotient by p is dividing by 2p. */
  lemma HalveQuotient(a: nat, p: nat)
    requires p > 0
    ensures (a / p) / 2 == a / (2 * p)
  {
    var q, r := a / p, a % p;
    var q2, r2 := q / 2, q % 2;
    Regroup(q2, r2, p, r);
    assert r2 * p <= p by {
      if r2 == 1 {
      }
    }
    DivideUniquely(a, 2 * p, q2, r2 * p + r);
  }

  /** Halving k + 1 times is dividing by 2^(k + 1). */
  lemma {:induction false} HalvedIsDivision(side: nat, k: nat)
    ensures Halved(side, k) == side / Pow2(k + 1)
  {
    if k > 0 {
      HalvedIsDivision(side, k - 1);
      HalveQuotient(side, Pow2(k));
    }
  }

  /** The level count starting at `k`, when every level before `k` has both sides above 1: it lies
      between k + 1 and 7, every level before the last has both sides above 1, and the chain stops
      short of 7 levels only at a level with a side of 1. */
  lemma {:induction false} LevelCountFromShape(width: int, height: int, k: nat)
    requires k < DownSampleLevels
    requires k == 0 ==> width >= 2 && height >= 2
    requires k > 0 ==> Halved(width, k - 1) > 1 && Halved(height, k - 1) > 1
    ensures var n := LevelCountFrom(width, height, k);
      && k + 1 <= n <= DownSampleLevels
      && (forall j | k <= j < n - 1 :: Halved(width, j) > 1 && Halved(height, j) > 1)
      && (forall j | k <= j < n :: Halved(width, j) >= 1 && Halved(height, j) >= 1)
      && (n < DownSampleLevels ==> Halved(width, n - 1) == 1 || Halved(height, n - 1) == 1)
    decreases DownSampleLevels - k
  {
    if !(k == DownSampleLevels - 1 || Halved(width, k) == 1 || Halved(height, k) == 1) {
      LevelCountFromShape(width, height, k + 1);
    }
  }

  /** The chain has between 1 and 7 levels; level k is the input size divided by 2^(k + 1), at least
      one pixel on each side; every level but the last has both sides above 1; a chain shorter than 7
      ends at the first level with a side of 1. */
  lemma MipChainShape(width: nat, height: nat, firstFramebuffer: nat)
    requires width >= 2 && height >= 2
    ensures var n := LevelCount(width, height);
      && 1 <= n <= DownSampleLevels
      && (forall k | 0 <= k < n :: LevelTexture(width, height, firstFramebuffer, k).width == width / Pow2(k + 1) >= 1)
      && (forall k | 0 <= k < n :: LevelTexture(width, height, firstFramebuffer, k).height == height / Pow2(k + 1) >= 1)
      && (forall k | 0 <= k < n - 1 :: Halved(width, k) > 1 && Halved(height, k) > 1)
      && (n < DownSampleLevels ==> Halved(width, n - 1) == 1 || Halved(height, n - 1) == 1)
  {
    LevelCountFromShape(width, height, 0);
    forall k | 0 <= k < LevelCount(width, height)
      ensures Halved(width, k) == width / Pow2(k + 1) && Halved(height, k) == height / Pow2(k + 1)
    {
      HalvedIsDivision(width, k);
      HalvedIsDivision(height, k);
    }
    forall k | 0 <= k < LevelCount(width, height)
      ensures LevelTexture(width, height, firstFramebuffer, k).width >= 1
    {
      assert Halved(width, k) >= 1;
    }
  }

  /** The chain's textures are render targets on framebuffers of their own, none of them the threshold texture's. */
  lemma ChainFramebuffers(width: int, height: int, firstFramebuffer: nat, chain: seq<Texture>)
    requires forall k | 0 <= k < |chain| :: chain[k] == LevelTexture(width, height, firstFramebuffer, k)
    ensures forall k | 0 <= k < |chain| :: chain[k].kind == RenderTarget && chain[k].framebufferId != firstFramebuffer
    ensures forall i, j | 0 <= i < j < |chain| :: chain[i].framebufferId != chain[j].framebufferId
  {
  }

  /** The constructor's loop: halve the size, allocate a render target of that size, and stop after
      a level with a side of 1 or after seven levels. */
  method BuildChain(width: int, height: int, firstFramebuffer: nat) returns (textures: seq<Texture>)
    requires width >= 2 && height >= 2
    ensures |textures| == LevelCount(width, height)
    ensures forall k | 0 <= k < |textures| :: textures[k] == LevelTexture(width, height, firstFramebuffer, k)
  {
    textures := [];
    var w, h := width, height;
    var level := 0;
    while level < DownSampleLevels
      invariant 0 <= level <= DownSampleLevels && |textures| == level
      invariant level == 0 ==> w == width && h == height
      invariant level > 0 ==> w == Halved(width, level - 1) && h == Halved(height, level - 1)
      invariant w >= 2 && h >= 2
      invariant forall k | 0 <= k < level :: textures[k] == LevelTexture(width, height, firstFramebuffer, k)
      invariant level < DownSampleLevels ==> LevelCount(width, height) == LevelCountFrom(width, height, level)
      invariant level == DownSampleLevels ==> LevelCount(width, height) == DownSampleLevels
    {
      w := w / 2;
      h := h / 2;
      textures := textures + [TextureInfo(RenderTarget, w, h, firstFramebuffer + 1 + level)];
      if w == 1 || h == 1 {
        return;
      }
      level := level + 1;
    }
  }

  /** What ApplyEffect does, step by step: a draw into the framebuffer bound at the time, a clear of
      that framebuffer, or the return to the default framebuffer. */
  datatype Step =
    | Draw(framebuffer: nat, source: Texture, blend: BlendMode, program: ShaderId, quad: seq<Vertex>)
    | ClearTarget(framebuffer: nat, color: Color)
    | Unbind

  /** The six vertices BatchQuadUV stores for the whole source (uv 0..1) over (0,0)..(width,height) in white. */
  function SizeQuad(extent: Texture): seq<Vertex>
  {
    QuadVertices(BoxCorners(Vec2(0.0, 0.0), Vec2(1.0, 1.0), Vec2(0.0, 0.0), Vec2(extent.width as real, extent.height as real), White))
  }

  /** The six vertices BatchQuad stores for `input` at the origin, unrotated and unscaled. */
  function CompositeQuad(trig: Trig, input: Texture): seq<Vertex>
  {
    QuadVertices(TexturedCorners(input, Option.None, Vec2(0.0, 0.0), trig.sin(0.0), trig.cos(0.0), Vec2(1.0, 1.0), Vec2(0.0, 0.0), Normal, White))
  }

  /** The down-sample passes over `levels`: level k drawn without blending from the level before it
      (from `first` for level 0), each followed by a return to the default framebuffer. */
  function DownSteps(first: Texture, levels: seq<Texture>, program: ShaderId): (r: seq<Step>)
    ensures |r| == 2 * |levels|
    decreases |levels|
  {
    if levels == [] then []
    else
      var n := |levels|;
      DownSteps(first, levels[..n - 1], program)
        + [Draw(levels[n - 1].framebufferId, if n == 1 then first else levels[n - 2], BlendMode.None, program, SizeQuad(levels[n - 1])), Unbind]
  }

  /** The up-sample pass at `level`: level `level` is added onto level `level - 1`. */
  function UpPass(levels: seq<Texture>, level: nat, program: ShaderId): Step
    requires 1 <= level < |levels|
  {
    Draw(levels[level - 1].framebufferId, levels[level], Additive, program, SizeQuad(levels[level - 1]))
  }

  /** The up-sample passes for level |levels| - 2 down to `lo`. */
  function UpSteps(levels: seq<Texture>, lo: nat, program: ShaderId): seq<Step>
    requires lo >= 1
    decreases |levels| - lo
  {
    if lo + 2 > |levels| then [] else UpSteps(levels, lo + 1, program) + [UpPass(levels, lo, program)]
  }

  /** The composite: clear `output` to black, add `input`, then add level 0, then restore the default framebuffer. */
  function CompositeSteps(input: Texture, output: Texture, level0: Texture, upProgram: ShaderId, defaultProgram: ShaderId, trig: Trig): seq<Step>
  {
    [ClearTarget(output.framebufferId, Black),
     Draw(output.framebufferId, input, Additive, defaultProgram, CompositeQuad(trig, input)),
     Draw(output.framebufferId, level0, Additive, upProgram, SizeQuad(output)),
     Unbind]
  }

  /** The batches a run of steps hands to the device: one per draw. */
  function Quads(steps: seq<Step>): seq<seq<Vertex>>
  {
    if steps == [] then []
    else Quads(steps[..|steps| - 1]) + (if steps[|steps| - 1].Draw? then [steps[|steps| - 1].quad] else [])
  }

  lemma {:induction false} QuadsConcat(a: seq<Step>, b: seq<Step>)
    ensures Quads(a + b) == Quads(a) + Quads(b)
    decreases |b|
  {
    if b == [] {
      assert a + b == a;
    } else {
      var init := b[..|b| - 1];
      assert (a + b)[..|a + b| - 1] == a + init;
      QuadsConcat(a, init);
    }
  }

  /** Down-sample pass k writes level k from level k - 1 (the threshold texture for k = 0) without
      blending, and the default framebuffer is bound again right after it. */
  lemma {:induction false} DownPassAt(first: Texture, levels: seq<Texture>, program: ShaderId, k: nat)
    requires k < |levels|
    ensures DownSteps(first, levels, program)[2 * k]
      == Draw(levels[k].framebufferId, if k == 0 then first else levels[k - 1], BlendMode.None, program, SizeQuad(levels[k]))
    ensures DownSteps(first, levels, program)[2 * k + 1] == Unbind
    decreases |levels|
  {
    var n := |levels|;
    var init := levels[..n - 1];
    if k < n - 1 {
      DownPassAt(first, init, program, k);
      assert init[k] == levels[k];
      assert k > 0 ==> init[k - 1] == levels[k - 1];
    }
  }

  /** There are max(n - 2, 0) up-sample passes, in decreasing level order: the j-th reads level n - 2 - j
      and adds onto level n - 3 - j. */
  lemma {:induction false} UpPassAt(levels: seq<Texture>, lo: nat, program: ShaderId)
    requires lo >= 1
    ensures |UpSteps(levels, lo, program)| == if lo + 2 > |levels| then 0 else |levels| - 1 - lo
    ensures forall j | 0 <= j < |UpSteps(levels, lo, program)| ::
      UpSteps(levels, lo, program)[j] == UpPass(levels, |levels| - 2 - j, program)
    decreases |levels| - lo
  {
    if lo + 2 <= |levels| {
      UpPassAt(levels, lo + 1, program);
    }
  }

  /** With distinct framebuffers, no up-sample pass reads the smallest level. */
  lemma SmallestLevelNeverUpSampled(levels: seq<Texture>, program: ShaderId)
    requires forall i, j | 0 <= i < j < |levels| :: levels[i].framebufferId != levels[j].framebufferId
    ensures forall j | 0 <= j < |UpSteps(levels, 1, program)| ::
      UpSteps(levels, 1, program)[j].Draw? && UpSteps(levels, 1, program)[j].source != levels[|levels| - 1]
  {
    UpPassAt(levels, 1, program);
  }

  class BloomEffect {
    const device: GraphicsDevice
    const thresholdExtractTexture: Texture
    const downSampleTextures: seq<Texture>
    const downSampleShader: ShaderId
    const upSampleBlurShader: ShaderId
    const thresholdExtractShader: ShaderId
    /** The steps of every ApplyEffect call so far. */
    ghost var steps: seq<Step>

    /** Every target is a render target on its own framebuffer, and the chain has 1 to 7 levels. */
    ghost predicate Valid()
    {
      && thresholdExtractTexture.kind == RenderTarget
      && 1 <= |downSampleTextures| <= DownSampleLevels
      && (forall k | 0 <= k < |downSampleTextures| ::
            downSampleTextures[k].kind == RenderTarget && downSampleTextures[k].framebufferId != thresholdExtractTexture.framebufferId)
      && forall i, j | 0 <= i < j < |downSampleTextures| :: downSampleTextures[i].framebufferId != downSampleTextures[j].framebufferId
    }

    /** The renderer draws on this effect's device and is not inside a Begin/End pair. */
    ghost predicate Ready(renderer: BatchRenderer)
      reads renderer, renderer.vertices, renderer.device
    {
      && renderer.Valid() && !renderer.batchStarted
      && renderer.device == device && renderer.maximumVertices >= 6
    }

    /** All steps of ApplyEffect, pass by pass. */
    ghost function Schedule(input: Texture, output: Texture, defaultProgram: ShaderId, trig: Trig): seq<Step>
      requires Valid()
    {
      [Draw(thresholdExtractTexture.framebufferId, input, BlendMode.None, thresholdExtractShader, SizeQuad(output))]
        + DownSteps(thresholdExtractTexture, downSampleTextures, downSampleShader)
        + UpSteps(downSampleTextures, 1, upSampleBlurShader)
        + CompositeSteps(input, output, downSampleTextures[0], upSampleBlurShader, defaultProgram, trig)
    }

    /** The constructor: a threshold texture of the full size, then the down-sample chain. The
        framebuffer ids the textures get are consecutive from `firstFramebuffer`, and the shader
        programs are the ids of the three compiled programs. */
    constructor(width: int, height: int, graphicsDevice: GraphicsDevice, firstFramebuffer: nat,
                downSampleShader: ShaderId, upSampleBlurShader: ShaderId, thresholdExtractShader: ShaderId)
      requires width >= 2 && height >= 2
      ensures Valid() && steps == []
      ensures device == graphicsDevice
      ensures thresholdExtractTexture == TextureInfo(RenderTarget, width, height, firstFramebuffer)
      ensures |downSampleTextures| == LevelCount(width, height)
      ensures forall k | 0 <= k < |downSampleTextures| :: downSampleTextures[k] == LevelTexture(width, height, firstFramebuffer, k)
      ensures this.downSampleShader == downSampleShader && this.upSampleBlurShader == upSampleBlurShader
      ensures this.thresholdExtractShader == thresholdExtractShader
    {
      device := graphicsDevice;
      thresholdExtractTexture := TextureInfo(RenderTarget, width, height, firstFramebuffer);
      var chain := BuildChain(width, height, firstFramebuffer);
      downSampleTextures := chain;
      this.downSampleShader := downSampleShader;
      this.upSampleBlurShader := upSampleBlurShader;
      this.thresholdExtractShader := thresholdExtractShader;
      steps := [];
      LevelCountFromShape(width, height, 0);
      ChainFramebuffers(width, height, firstFramebuffer, chain);
    }

    /** Binds a render target, viewport included; the renderer stays ready. */
    method BindTarget(renderer: BatchRenderer, target: Texture)
      requires Ready(renderer) && target.kind == RenderTarget
      modifies device
      ensures Ready(renderer) && renderer.batches == old(renderer.batches)
      ensures device.currentFramebufferObject == target.framebufferId
    {
      device.BindRenderTarget(target, true);
    }

    /** Restores the default framebuffer and viewport. */
    method UnbindTarget(renderer: BatchRenderer)
      requires Ready(renderer)
      modifies this, device
      ensures Ready(renderer) && renderer.batches == old(renderer.batches)
      ensures !device.IsUsingRenderTarget()
      ensures steps == old(steps) + [Unbind]
    {
      device.UnbindRenderTarget(true);
      steps := steps + [Unbind];
    }

    /** Clears the bound framebuffer. */
    method ClearTargetTo(renderer: BatchRenderer, color: Color)
      requires Ready(renderer)
      modifies this, device
      ensures Ready(renderer) && renderer.batches == old(renderer.batches)
      ensures device.currentFramebufferObject == old(device.currentFramebufferObject)
      ensures steps == old(steps) + [ClearTarget(old(device.currentFramebufferObject), color)]
    {
      device.ClearScreen(color);
      steps := steps + [ClearTarget(device.currentFramebufferObject, color)];
    }

    /** One Begin/BatchQuadUV/End pass into the bound framebuffer: `source` stretched over
        (0,0)..(extent's width, extent's height) with `program`. The pass flushes exactly its quad. */
    method QuadPass(renderer: BatchRenderer, blend: BlendMode, source: Texture, program: ShaderId, extent: Texture)
      requires Ready(renderer) && blend != Invalid
      modifies this, renderer, renderer.vertices, device
      ensures Ready(renderer)
      ensures device.currentFramebufferObject == old(device.currentFramebufferObject)
      ensures steps == old(steps) + [Draw(old(device.currentFramebufferObject), source, blend, program, SizeQuad(extent))]
      ensures renderer.batches == old(renderer.batches) + [SizeQuad(extent)]
    {
      var _ := renderer.Begin(blend, Some(source), Some(program), Identity);
      ghost var start := renderer.Submitted();
      assert start == Flatten(renderer.batches) + [] by {
        assert renderer.Pending() == [];
      }
      var _ := renderer.BatchQuadUV(Vec2(0.0, 0.0), Vec2(1.0, 1.0), Vec2(0.0, 0.0), Vec2(extent.width as real, extent.height as real), White);
      SamePrefix(Flatten(renderer.batches), renderer.Pending(), SizeQuad(extent));
      steps := steps + [Draw(device.currentFramebufferObject, renderer.texture.value, renderer.blendMode,
                             renderer.currentShaderProgram.value, renderer.Pending())];
      var _ := renderer.End();
    }

    /** The first composite pass: BatchQuad of `input` at the origin with the renderer's default program. */
    method TexturePass(renderer: BatchRenderer, input: Texture)
      requires Ready(renderer)
      modifies this, renderer, renderer.vertices, device
      ensures Ready(renderer)
      ensures device.currentFramebufferObject == old(device.currentFramebufferObject)
      ensures steps == old(steps)
        + [Draw(old(device.currentFramebufferObject), input, Additive, renderer.defaultShaderProgram, CompositeQuad(renderer.trig, input))]
      ensures renderer.batches == old(renderer.batches) + [CompositeQuad(renderer.trig, input)]
    {
      var _ := renderer.Begin(Additive, Some(input), Option.None, Identity);
      ghost var start := renderer.Submitted();
      assert start == Flatten(renderer.batches) + [] by {
        assert renderer.Pending() == [];
      }
      var _ := renderer.BatchQuad(Option.None, Vec2(0.0, 0.0), 0.0, Vec2(1.0, 1.0), Vec2(0.0, 0.0), Normal, White);
      SamePrefix(Flatten(renderer.batches), renderer.Pending(), CompositeQuad(renderer.trig, input));
      steps := steps + [Draw(device.currentFramebufferObject, renderer.texture.value, renderer.blendMode,
                             renderer.currentShaderProgram.value, renderer.Pending())];
      var _ := renderer.End();
    }

    /** The threshold pass: `input` drawn into the threshold texture at the output's size, without blending. */
    method ThresholdPass(renderer: BatchRenderer, input: Texture, output: Texture)
      requires Valid() && Ready(renderer)
      modifies this, renderer, renderer.vertices, device
      ensures Ready(renderer)
      ensures steps == old(steps) + [Draw(thresholdExtractTexture.framebufferId, input, BlendMode.None, thresholdExtractShader, SizeQuad(output))]
      ensures renderer.batches == old(renderer.batches) + [SizeQuad(output)]
    {
      BindTarget(renderer, thresholdExtractTexture);
      QuadPass(renderer, BlendMode.None, input, thresholdExtractShader, output);
    }

    /** Down-sample pass k: bind level k, draw the current texture into it, unbind. */
    method DownPass(renderer: BatchRenderer, k: nat, currentTexture: Texture, ghost before: seq<Step>, ghost beforeBatches: seq<seq<Vertex>>)
      requires Valid() && Ready(renderer) && k < |downSampleTextures|
      requires currentTexture == if k == 0 then thresholdExtractTexture else downSampleTextures[k - 1]
      requires steps == before + DownSteps(thresholdExtractTexture, downSampleTextures[..k], downSampleShader)
      requires renderer.batches == beforeBatches + Quads(DownSteps(thresholdExtractTexture, downSampleTextures[..k], downSampleShader))
      modifies this, renderer, renderer.vertices, device
      ensures Ready(renderer)
      ensures steps == before + DownSteps(thresholdExtractTexture, downSampleTextures[..k + 1], downSampleShader)
      ensures renderer.batches == beforeBatches + Quads(DownSteps(thresholdExtractTexture, downSampleTextures[..k + 1], downSampleShader))
    {
      var texture := downSampleTextures[k];
      BindTarget(renderer, texture);
      QuadPass(renderer, BlendMode.None, currentTexture, downSampleShader, texture);
      UnbindTarget(renderer);
      DownStepsGrow(thresholdExtractTexture, downSampleTextures, downSampleShader, k);
    }

    /** The down-sample loop: every level in increasing order, each drawn from the one before. */
    method DownSample(renderer: BatchRenderer)
      requires Valid() && Ready(renderer)
      modifies this, renderer, renderer.vertices, device
      ensures Ready(renderer)
      ensures steps == old(steps) + DownSteps(thresholdExtractTexture, downSampleTextures, downSampleShader)
      ensures renderer.batches == old(renderer.batches) + Quads(DownSteps(thresholdExtractTexture, downSampleTextures, downSampleShader))
    {
      ghost var before, beforeBatches := steps, renderer.batches;
      var currentTexture := thresholdExtractTexture;
      var k := 0;
      assert downSampleTextures[..0] == [];
      while k < |downSampleTextures|
        invariant 0 <= k <= |downSampleTextures|
        invariant currentTexture == if k == 0 then thresholdExtractTexture else downSampleTextures[k - 1]
        invariant Ready(renderer)
        invariant steps == before + DownSteps(thresholdExtractTexture, downSampleTextures[..k], downSampleShader)
        invariant renderer.batches == beforeBatches + Quads(DownSteps(thresholdExtractTexture, downSampleTextures[..k], downSampleShader))
      {
        DownPass(renderer, k, currentTexture, before, beforeBatches);
        currentTexture := downSampleTextures[k];
        k := k + 1;
      }
      assert downSampleTextures[..k] == downSampleTextures;
    }

    /** Up-sample pass at `level`: bind level `level - 1` and add level `level` onto it. */
    method UpPassAtLevel(renderer: BatchRenderer, level: nat, ghost before: seq<Step>, ghost beforeBatches: seq<seq<Vertex>>)
      requires Valid() && Ready(renderer) && 1 <= level && level + 2 <= |downSampleTextures|
      requires steps == before + UpSteps(downSampleTextures, level + 1, upSampleBlurShader)
      requires renderer.batches == beforeBatches + Quads(UpSteps(downSampleTextures, level + 1, upSampleBlurShader))
      modifies this, renderer, renderer.vertices, device
      ensures Ready(renderer)
      ensures steps == before + UpSteps(downSampleTextures, level, upSampleBlurShader)
      ensures renderer.batches == beforeBatches + Quads(UpSteps(downSampleTextures, level, upSampleBlurShader))
    {
      UpStepsGrow(downSampleTextures, upSampleBlurShader, level);
      ghost var prior := UpSteps(downSampleTextures, level + 1, upSampleBlurShader);
      var sourceTexture := downSampleTextures[level];
      var destTexture := downSampleTextures[level - 1];
      BindTarget(renderer, destTexture);
      QuadPass(renderer, Additive, sourceTexture, upSampleBlurShader, destTexture);
      assert steps == before + prior + [UpPass(downSampleTextures, level, upSampleBlurShader)];
    }

    /** The up-sample loop: level n - 2 down to 1, each added onto the level above it in size. */
    method UpSample(renderer: BatchRenderer)
      requires Valid() && Ready(renderer)
      modifies this, renderer, renderer.vertices, device
      ensures Ready(renderer)
      ensures steps == old(steps) + UpSteps(downSampleTextures, 1, upSampleBlurShader)
      ensures renderer.batches == old(renderer.batches) + Quads(UpSteps(downSampleTextures, 1, upSampleBlurShader))
    {
      ghost var before, beforeBatches := steps, renderer.batches;
      var level := |downSampleTextures| - 2;
      NoUpStepsYet(downSampleTextures, upSampleBlurShader, before, beforeBatches);
      while level > 0
        invariant -1 <= level <= |downSampleTextures| - 2
        invariant Ready(renderer)
        invariant steps == before + UpSteps(downSampleTextures, if level <= 0 then 1 else level + 1, upSampleBlurShader)
        invariant renderer.batches == beforeBatches + Quads(UpSteps(downSampleTextures, if level <= 0 then 1 else level + 1, upSampleBlurShader))
      {
        UpPassAtLevel(renderer, level, before, beforeBatches);
        level := level - 1;
      }
    }

    /** The composite: bind and clear `output`, add `input`, add level 0, unbind. */
    method Composite(renderer: BatchRenderer, input: Texture, output: Texture)
      requires Valid() && Ready(renderer) && output.kind == RenderTarget
      modifies this, renderer, renderer.vertices, device
      ensures Ready(renderer) && !device.IsUsingRenderTarget()
      ensures steps == old(steps) + CompositeSteps(input, output, downSampleTextures[0], upSampleBlurShader, renderer.defaultShaderProgram, renderer.trig)
      ensures renderer.batches == old(renderer.batches)
        + Quads(CompositeSteps(input, output, downSampleTextures[0], upSampleBlurShader, renderer.defaultShaderProgram, renderer.trig))
    {
      BindTarget(renderer, output);
      ClearTargetTo(renderer, Black);
      TexturePass(renderer, input);
      QuadPass(renderer, Additive, downSampleTextures[0], upSampleBlurShader, output);
      UnbindTarget(renderer);
      CompositeQuads(input, output, downSampleTextures[0], upSampleBlurShader, renderer.defaultShaderProgram, renderer.trig);
    }

    /** ApplyEffect: the threshold pass, the down-sample passes, the up-sample passes and the composite,
        each a closed Begin/End pair that hands exactly its one quad to the device, ending on the
        default framebuffer. */
    method ApplyEffect(input: Texture, output: Texture, renderer: BatchRenderer)
      requires Valid() && Ready(renderer) && output.kind == RenderTarget
      modifies this, renderer, renderer.vertices, device
      ensures Ready(renderer) && !device.IsUsingRenderTarget()
      ensures steps == old(steps) + Schedule(input, output, renderer.defaultShaderProgram, renderer.trig)
      ensures renderer.batches == old(renderer.batches) + Quads(Schedule(input, output, renderer.defaultShaderProgram, renderer.trig))
    {
      ghost var thresholdStep := Draw(thresholdExtractTexture.framebufferId, input, BlendMode.None, thresholdExtractShader, SizeQuad(output));
      ThresholdPass(renderer, input, output);
      DownSample(renderer);
      UpSample(renderer);
      Composite(renderer, input, output);
      ghost var down := DownSteps(thresholdExtractTexture, downSampleTextures, downSampleShader);
      ghost var up := UpSteps(downSampleTextures, 1, upSampleBlurShader);
      ghost var composite := CompositeSteps(input, output, downSampleTextures[0], upSampleBlurShader, renderer.defaultShaderProgram, renderer.trig);
      Regroup4(old(steps), [thresholdStep], down, up, composite);
      Regroup4(old(renderer.batches), [SizeQuad(output)], Quads(down), Quads(up), Quads(composite));
      QuadsOfParts(thresholdStep, down, up, composite);
    }

  }

  /** The batches of a run made of one step and three parts are the step's, then each part's. */
  lemma QuadsOfParts(first: Step, a: seq<Step>, b: seq<Step>, c: seq<Step>)
    requires first.Draw?
    ensures Quads([first] + a + b + c) == [first.quad] + Quads(a) + Quads(b) + Quads(c)
  {
    QuadsConcat([first] + a + b, c);
    QuadsConcat([first] + a, b);
    QuadsConcat([first], a);
    QuadsSnoc([], first);
    assert [] + [first] == [first];
  }

  lemma Regroup4<T>(s: seq<T>, a: seq<T>, b: seq<T>, c: seq<T>, d: seq<T>)
    ensures s + a + b + c + d == s + (a + b + c + d)
  {
  }

  lemma SamePrefix(a: seq<Vertex>, x: seq<Vertex>, y: seq<Vertex>)
    requires a + x == a + [] + y
    ensures x == y
  {
    assert x == (a + x)[|a|..];
    assert y == (a + [] + y)[|a|..];
  }

  lemma QuadsSnoc(steps: seq<Step>, step: Step)
    ensures Quads(steps + [step]) == Quads(steps) + (if step.Draw? then [step.quad] else [])
  {
    assert (steps + [step])[..|steps|] == steps;
  }

  /** One more down-sample pass: a draw and an unbind at the end of the steps, one more quad. */
  lemma DownStepsGrow(first: Texture, levels: seq<Texture>, program: ShaderId, k: nat)
    requires k < |levels|
    ensures DownSteps(first, levels[..k + 1], program) == DownSteps(first, levels[..k], program)
      + [Draw(levels[k].framebufferId, if k == 0 then first else levels[k - 1], BlendMode.None, program, SizeQuad(levels[k])), Unbind]
    ensures Quads(DownSteps(first, levels[..k + 1], program)) == Quads(DownSteps(first, levels[..k], program)) + [SizeQuad(levels[k])]
  {
    var prefix := levels[..k + 1];
    assert prefix[..k] == levels[..k];
    var before := DownSteps(first, levels[..k], program);
    var draw := Draw(levels[k].framebufferId, if k == 0 then first else levels[k - 1], BlendMode.None, program, SizeQuad(levels[k]));
    QuadsSnoc(before, draw);
    QuadsSnoc(before + [draw], Unbind);
    assert before + [draw] + [Unbind] == before + [draw, Unbind];
  }

  /** One more up-sample pass: one more draw at the end of the steps, one more quad. */
  lemma UpStepsGrow(levels: seq<Texture>, program: ShaderId, level: nat)
    requires 1 <= level && level + 2 <= |levels|
    ensures UpSteps(levels, level, program) == UpSteps(levels, level + 1, program) + [UpPass(levels, level, program)]
    ensures Quads(UpSteps(levels, level, program)) == Quads(UpSteps(levels, level + 1, program)) + [SizeQuad(levels[level - 1])]
  {
    QuadsConcat(UpSteps(levels, level + 1, program), [UpPass(levels, level, program)]);
    assert [UpPass(levels, level, program)][..0] == [];
  }

  lemma NoUpStepsYet(levels: seq<Texture>, program: ShaderId, before: seq<Step>, beforeBatches: seq<seq<Vertex>>)
    requires |levels| >= 1
    ensures var level := |levels| - 2;
      var lo := if level <= 0 then 1 else level + 1;
      && before + UpSteps(levels, lo, program) == before
      && beforeBatches + Quads(UpSteps(levels, lo, program)) == beforeBatches
  {
    var level := |levels| - 2;
    var lo := if level <= 0 then 1 else level + 1;
    assert UpSteps(levels, lo, program) == [];
  }

  lemma CompositeQuads(input: Texture, output: Texture, level0: Texture, upProgram: ShaderId, defaultProgram: ShaderId, trig: Trig)
    ensures Quads(CompositeSteps(input, output, level0, upProgram, defaultProgram, trig))
      == [CompositeQuad(trig, input), SizeQuad(output)]
  {
    var c := CompositeSteps(input, output, level0, upProgram, defaultProgram, trig);
    QuadsSnoc([], c[0]);
    QuadsSnoc([c[0]], c[1]);
    QuadsSnoc([c[0], c[1]], c[2]);
    QuadsSnoc([c[0], c[1], c[2]], c[3]);
    assert [c[0]] == [] + [c[0]] && [c[0], c[1]] == [c[0]] + [c[1]];
    assert [c[0], c[1], c[2]] == [c[0], c[1]] + [c[2]] && c == [c[0], c[1], c[2]] + [c[3]];
  }
}
