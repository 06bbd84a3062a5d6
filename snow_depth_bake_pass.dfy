/** The depth-bake custom pass as a state machine over its own fields. Setup captures
    the settings, sizes the baked textures from the snow renderers' bounds and resets
    the once-per-Setup flags; each Execute appends to the command buffer the passes and
    compute dispatches of one frame. Passes and dispatches are opaque commands: what they
    compute on the GPU is not modelled, only which are recorded, with which pass or
    kernel index and radius, and in which order. */
module SnowDepthBakePass {

  import opened Common
  import opened Engine
  import opened ShaderPassUtil
  import opened SnowDepthBake
  import LDS = LowDiscrepancySequence
  import MU = SnowMaterialUtil

  // ---------------------------------------------------------------------------------
  // Kernels and passes
  // ---------------------------------------------------------------------------------

  /** The kernels of the displacement compute shader. */
  datatype Kernel =
    | Displacement | Minimum | MinimumWithFalloffMask | HeightAboveOneSpread
    | VelocityClear | VelocityUpdate | VelocityDecode | HeightEncode | SweepArea

  function KernelName(k: Kernel): string
  {
    match k
    case Displacement => "SimpleDisplacement"
    case Minimum => "HeightMinimum"
    case MinimumWithFalloffMask => "HeightMinimumWithFalloffMask"
    case HeightAboveOneSpread => "HeightAboveOneSpread"
    case VelocityClear => "VelocityClear"
    case VelocityUpdate => "VelocityUpdateSimple"
    case VelocityDecode => "VelocityDecode"
    case HeightEncode => "HeightEncode"
    case SweepArea => "SweepArea"
  }

  /** The index each kernel id falls back to when the shader has no kernel of its name. */
  function DefaultKernelIndex(k: Kernel): nat
  {
    match k
    case Displacement => 0
    case Minimum => 1
    case MinimumWithFalloffMask => 2
    case HeightAboveOneSpread => 3
    case VelocityClear => 4
    case VelocityUpdate => 5
    case VelocityDecode => 6
    case HeightEncode => 7
    case SweepArea => 8
  }

  predicate IsVelocityKernel(k: Kernel)
  {
    k == VelocityClear || k == VelocityUpdate || k == VelocityDecode
  }

  /** The kernel-id fields. Each id resolves on its first conversion to an index and
      yields the same index on every later one, so one index stands for each. */
  datatype KernelIds = KernelIds(
    displacement: int, minimum: int, minimumWithFalloffMask: int, heightAboveOneSpread: int,
    velocityClear: int, velocityUpdate: int, velocityDecode: int, heightEncode: int, sweepArea: int)
  {
    function Of(k: Kernel): int
    {
      match k
      case Displacement => displacement
      case Minimum => minimum
      case MinimumWithFalloffMask => minimumWithFalloffMask
      case HeightAboveOneSpread => heightAboveOneSpread
      case VelocityClear => velocityClear
      case VelocityUpdate => velocityUpdate
      case VelocityDecode => velocityDecode
      case HeightEncode => heightEncode
      case SweepArea => sweepArea
    }
  }

  /** The kernel ids before Setup has created them. They are null references in the
      pass, and -1 here; no frame reads them. */
  const NoKernelIds: KernelIds := KernelIds(-1, -1, -1, -1, -1, -1, -1, -1, -1)

  /** Whether every kernel id a frame dispatches is non-negative: all of them, the
      velocity ones only when velocity is simulated. */
  predicate Dispatchable(ids: KernelIds, simulateVelocity: bool)
  {
    && ids.displacement >= 0 && ids.minimum >= 0 && ids.minimumWithFalloffMask >= 0
    && ids.heightAboveOneSpread >= 0 && ids.heightEncode >= 0 && ids.sweepArea >= 0
    && (simulateVelocity ==> ids.velocityClear >= 0 && ids.velocityUpdate >= 0 && ids.velocityDecode >= 0)
  }

  /** Whether the id of `k` holds the shader's kernel of that name, or the fallback when
      the shader has none. */
  predicate Resolves(ids: KernelIds, shader: ComputeShader, k: Kernel)
  {
    && (HasKernel(shader, KernelName(k)) ==>
          0 <= ids.Of(k) < |shader.kernelNames| && shader.kernelNames[ids.Of(k)] == KernelName(k))
    && (!HasKernel(shader, KernelName(k)) ==> ids.Of(k) == DefaultKernelIndex(k))
  }

  /** The index a kernel id created on a compute shader converts to. */
  function ResolvedKernel(shader: ComputeShader, k: Kernel): (id: int)
    ensures Resolves(KernelIds(id, id, id, id, id, id, id, id, id), shader, k)
    ensures id >= 0
  {
    KernelIdOf(Some(shader), KernelName(k), DefaultKernelIndex(k))
  }

  /** The kernel ids Setup creates for a compute shader; the velocity ones only when
      velocity is simulated, the others keeping their previous values. */
  function SetupKernelIds(shader: ComputeShader, simulateVelocity: bool, previous: KernelIds): (ids: KernelIds)
    ensures !simulateVelocity ==>
              ids.velocityClear == previous.velocityClear && ids.velocityUpdate == previous.velocityUpdate
              && ids.velocityDecode == previous.velocityDecode
    ensures Dispatchable(ids, simulateVelocity)
  {
    KernelIds(
      ResolvedKernel(shader, Displacement),
      ResolvedKernel(shader, Minimum),
      ResolvedKernel(shader, MinimumWithFalloffMask),
      ResolvedKernel(shader, HeightAboveOneSpread),
      if simulateVelocity then ResolvedKernel(shader, VelocityClear) else previous.velocityClear,
      if simulateVelocity then ResolvedKernel(shader, VelocityUpdate) else previous.velocityUpdate,
      if simulateVelocity then ResolvedKernel(shader, VelocityDecode) else previous.velocityDecode,
      ResolvedKernel(shader, HeightEncode),
      ResolvedKernel(shader, SweepArea))
  }

  /** Whether every kernel id a frame may dispatch resolves on the shader. */
  predicate KernelsResolve(ids: KernelIds, shader: ComputeShader, simulateVelocity: bool)
  {
    forall k :: !IsVelocityKernel(k) || simulateVelocity ==> Resolves(ids, shader, k)
  }

  lemma SetupKernelIdsValid(shader: ComputeShader, simulateVelocity: bool, previous: KernelIds)
    ensures KernelsResolve(SetupKernelIds(shader, simulateVelocity, previous), shader, simulateVelocity)
  {
    forall k | !IsVelocityKernel(k) || simulateVelocity
      ensures Resolves(SetupKernelIds(shader, simulateVelocity, previous), shader, k)
    {
      SetupKernelIdsResolve(shader, simulateVelocity, previous, k);
    }
  }

  /** Every kernel id Setup creates holds the shader's kernel of its name, or its
      fallback when the shader has none. */
  lemma SetupKernelIdsResolve(shader: ComputeShader, simulateVelocity: bool, previous: KernelIds, k: Kernel)
    requires !IsVelocityKernel(k) || simulateVelocity
    ensures Resolves(SetupKernelIds(shader, simulateVelocity, previous), shader, k)
  {
    var ids := SetupKernelIds(shader, simulateVelocity, previous);
    var id := ResolvedKernel(shader, k);
    assert ids.Of(k) == id;
    assert Resolves(KernelIds(id, id, id, id, id, id, id, id, id), shader, k);
  }

  /** The shader-pass-id fields a frame reads. */
  datatype PassIds = PassIds(
    heightDecode: int, maskHeightUpdate: int,
    horizontalDilationBelowEpsilon: int, verticalDilationBelowEpsilon: int,
    maskGreen: int, maskLayerOneTwo: int, maskGreenFromHeightmap: int, maskLayerOneTwoFromHeightmap: int,
    detailNormal: int, detailNormalFromBlurred: int)

  /** The pass ids before Setup has created them (null references in the pass). */
  const NoPassIds: PassIds := PassIds(-1, -1, -1, -1, -1, -1, -1, -1, -1, -1)

  /** The fallback index of each pass id. */
  const FallbackPassIds: PassIds := PassIds(0, 1, 2, 3, 2, 3, 4, 5, 1, 2)

  /** The pass ids Setup creates. Setup creates them before the materials they read, so
      each holds a null material and converts to its fallback index. */
  function SetupPassIds(): (ids: PassIds)
    ensures ids == FallbackPassIds
  {
    PassIds(
      PassIdOf(None, "Height Decode", 0),
      PassIdOf(None, "HeightUpdate", 1),
      PassIdOf(None, "Horizontal Dilation If Below Epsilon", 2),
      PassIdOf(None, "Vertical Dilation If Below Epsilon", 3),
      PassIdOf(None, "MaskInterpolateUpdateGreen", 2),
      PassIdOf(None, "MaskInterpolateUpdate_BetweenLayersOneAndTwo", 3),
      PassIdOf(None, "MaskInterpolateFromHeight_Green", 4),
      PassIdOf(None, "MaskInterpolateFromHeight_BetweenLayersOneAndTwo", 5),
      PassIdOf(None, "DetailNormalUpdate", 1),
      PassIdOf(None, "DetailNormalUpdateFromBlurred", 2))
  }

  /** LayerMaskShaderPassId: the green-channel pass for a three-layer template and the
      layers-one-and-two pass otherwise, each in its from-height-map variant when the
      layer mask follows the final mask height. */
  function LayerMaskPass(passes: PassIds, templateLayerCount: int, fromFinalMaskHeight: bool): int
  {
    if templateLayerCount == 3 then
      if fromFinalMaskHeight then passes.maskGreenFromHeightmap else passes.maskGreen
    else
      if fromFinalMaskHeight then passes.maskLayerOneTwoFromHeightmap else passes.maskLayerOneTwo
  }

  /** DetailNormalShaderPassId: the from-blurred pass when smoothed normals are on. */
  function DetailNormalPass(passes: PassIds, useSmoothedNormalGeneration: bool): int
  {
    if useSmoothedNormalGeneration then passes.detailNormalFromBlurred else passes.detailNormal
  }

  // ---------------------------------------------------------------------------------
  // Commands
  // ---------------------------------------------------------------------------------

  /** What one step of Setup or Execute records. A blur or an erosion is a horizontal
      pass followed by a vertical one and is recorded as one pair. */
  datatype Command =
    | GroundBake                          // ground layers' depth into the ground-bake texture
    | DepthRectification
    | Downsample(size: Vec2Int)           // copy into the next temporary target
    | LaplacianTarget(size: Vec2Int)      // the Laplacian buffer, at the last downsample factor
    | FalloffGradient
    | BlurPair(radius: real)
    | Laplacian
    | ErosionPair
    | RemapToUnitRange
    | FalloffPower
    | LaplacianSign
    | MaxCombine
    | EdgeDistanceMin
    | HeightRender                        // the snow casters' depth into the depth-bake buffer
    | MotionVectorRender
    | DilationPair(horizontalPass: int, verticalPass: int)
    | Indicator
    | Gradient(multiplier: real)
    | SweepAreaCopy
    | JitterSet(jitter: Vec2)
    | Dispatch(kernel: Kernel, index: int)
    | HeightDecode(pass: int)
    | NormalGradient
    | MaskHeightUpdate(pass: int)
    | LayerMaskUpdate(pass: int)
    | DetailNormalUpdate(pass: int)

  /** The camera's command buffer, to which passes and dispatches are appended. */
  class CommandBuffer {
    var commands: seq<Command>

    constructor()
      ensures commands == []
    {
      commands := [];
    }

    method Add(c: Command)
      modifies this
      ensures commands == old(commands) + [c]
    {
      commands := commands + [c];
    }
  }

  /** The number of iterations of a loop `for (i = 0; i < n; i++)`. */
  function Iterations(n: int): nat
  {
    if n > 0 then n else 0
  }

  /** `block` recorded `n` times in a row. */
  function Repeated(block: seq<Command>, n: nat): seq<Command>
  {
    if n == 0 then [] else Repeated(block, n - 1) + block
  }

  /** What DispatchComputeDisplacement records for a kernel index. */
  function DispatchOf(k: Kernel, index: int): seq<Command>
  {
    if index >= 0 then [Dispatch(k, index)] else []
  }

  /** DispatchComputeDisplacement: dispatches the kernel when its index is a real one
      and reports whether it did. The thread-group counts are not recorded. */
  method DispatchComputeDisplacement(cmd: CommandBuffer, k: Kernel, kernelIndex: int) returns (dispatched: bool)
    modifies cmd
    ensures dispatched <==> kernelIndex >= 0
    ensures cmd.commands == old(cmd.commands) + DispatchOf(k, kernelIndex)
  {
    dispatched := false;
    if kernelIndex >= 0 {
      cmd.Add(Dispatch(k, kernelIndex));
      dispatched := true;
    }
  }

  // ---------------------------------------------------------------------------------
  // The edge-falloff build
  // ---------------------------------------------------------------------------------

  /** The copies into the first `n` temporary targets: target `k` is the texture size
      divided by that target's downsample factor. */
  function DownsampleCommands(size: Vec2Int, times: nat, n: nat): seq<Command>
  {
    if n == 0 then []
    else DownsampleCommands(size, times, n - 1) + [Downsample(Downsampled(size, TempTargetFactor(times, n - 1)))]
  }

  /** The blur pairs of a blur schedule, one per amount. */
  function LaplacianBlurs(schedule: seq<real>): seq<Command>
  {
    if schedule == [] then [] else [BlurPair(schedule[0])] + LaplacianBlurs(schedule[1..])
  }

  /** The edge-falloff build of the first guarded Execute: rectified depth, the
      downsample chain, the gradient length, the Laplacian blur loop, the Laplacian, the
      blurred and eroded falloff, its remap and power, the eroded Laplacian sign and the
      minimum with the distance to the texture's edges. */
  function EdgeFalloffCommands(size: Vec2Int, times: nat, laplacianBlurRadius: real, blurRadius: real): seq<Command>
  {
    [DepthRectification]
    + DownsampleCommands(size, times, TempTargetCount(times))
    + [LaplacianTarget(Downsampled(size, TempTargetFactor(times, TempTargetCount(times) - 1))), FalloffGradient]
    + LaplacianBlurs(BlurSchedule(0.0, laplacianBlurRadius / 4.0))
    + [Laplacian, BlurPair(blurRadius / 4.0)]
    + Repeated([ErosionPair], Iterations(Ceil(blurRadius)))
    + [RemapToUnitRange, FalloffPower, LaplacianSign]
    + Repeated([ErosionPair], Iterations(1))
    + [MaxCombine, EdgeDistanceMin]
  }

  /** The downsample loop: one copy per temporary target, each at 2 to the
      min(k + 1, times); the factor it ends with sizes the Laplacian buffer. */
  method RecordDownsamples(cmd: CommandBuffer, size: Vec2Int, times: nat) returns (downsampleFactor: int)
    modifies cmd
    ensures cmd.commands == old(cmd.commands) + DownsampleCommands(size, times, TempTargetCount(times))
    ensures downsampleFactor == TempTargetFactor(times, TempTargetCount(times) - 1)
  {
    var numberOfTempTargets := TempTargetCount(times);
    downsampleFactor := 1;
    var k := 0;
    while k < numberOfTempTargets
      invariant 0 <= k <= numberOfTempTargets
      invariant cmd.commands == old(cmd.commands) + DownsampleCommands(size, times, k)
      invariant k > 0 ==> downsampleFactor == TempTargetFactor(times, k - 1)
    {
      downsampleFactor := DownsampleFactor(MinInt(k + 1, times));
      ghost var before := cmd.commands;
      cmd.Add(Downsample(Downsampled(size, downsampleFactor)));
      assert cmd.commands == old(cmd.commands) + (DownsampleCommands(size, times, k) + [Downsample(Downsampled(size, downsampleFactor))]);
      k := k + 1;
    }
  }

  /** The Laplacian blur loop: while the accumulated amount is below the target it blurs
      by the rest, at most 1, and adds that amount. */
  method RecordLaplacianBlur(cmd: CommandBuffer, laplacianBlurRadiusBase: real)
    modifies cmd
    ensures cmd.commands == old(cmd.commands) + LaplacianBlurs(BlurSchedule(0.0, laplacianBlurRadiusBase))
  {
    var totalAmountOfBlur := 0.0;
    while totalAmountOfBlur < laplacianBlurRadiusBase
      invariant cmd.commands + LaplacianBlurs(BlurSchedule(totalAmountOfBlur, laplacianBlurRadiusBase))
                == old(cmd.commands) + LaplacianBlurs(BlurSchedule(0.0, laplacianBlurRadiusBase))
      decreases Ceil(laplacianBlurRadiusBase - totalAmountOfBlur)
    {
      var blurAmount := Min(1.0, laplacianBlurRadiusBase - totalAmountOfBlur);
      CeilDrops(laplacianBlurRadiusBase - totalAmountOfBlur, blurAmount);
      ghost var rest := BlurSchedule(totalAmountOfBlur + blurAmount, laplacianBlurRadiusBase);
      assert BlurSchedule(totalAmountOfBlur, laplacianBlurRadiusBase) == [blurAmount] + rest;
      LaplacianBlursCons(blurAmount, rest);
      ghost var before := cmd.commands;
      cmd.Add(BlurPair(blurAmount));
      assert cmd.commands + LaplacianBlurs(rest) == before + ([BlurPair(blurAmount)] + LaplacianBlurs(rest));
      totalAmountOfBlur := totalAmountOfBlur + blurAmount;
    }
  }

  lemma LaplacianBlursCons(amount: real, rest: seq<real>)
    ensures LaplacianBlurs([amount] + rest) == [BlurPair(amount)] + LaplacianBlurs(rest)
  {
    assert ([amount] + rest)[1..] == rest;
  }

  /** A loop that records `block` on each of `n` iterations. */
  method RecordRepeated(cmd: CommandBuffer, block: seq<Command>, n: int)
    modifies cmd
    ensures cmd.commands == old(cmd.commands) + Repeated(block, Iterations(n))
  {
    var i := 0;
    while i < n
      invariant 0 <= i <= Iterations(n)
      invariant cmd.commands == old(cmd.commands) + Repeated(block, i)
    {
      cmd.commands := cmd.commands + block;
      assert cmd.commands == old(cmd.commands) + (Repeated(block, i) + block);
      i := i + 1;
    }
  }

  lemma AppendAssoc(a: seq<Command>, b: seq<Command>, c: seq<Command>)
    ensures (a + b) + c == a + (b + c)
  {
  }

  /** The edge-falloff build as Execute records it. */
  method RecordEdgeFalloff(cmd: CommandBuffer, size: Vec2Int, times: nat, laplacianBlurRadius: real, blurRadius: real)
    modifies cmd
    ensures cmd.commands == old(cmd.commands) + EdgeFalloffCommands(size, times, laplacianBlurRadius, blurRadius)
  {
    ghost var c0 := cmd.commands;
    cmd.Add(DepthRectification);
    ghost var e: seq<Command> := [DepthRectification];
    var downsampleFactor := RecordDownsamples(cmd, size, times);
    AppendAssoc(c0, e, DownsampleCommands(size, times, TempTargetCount(times)));
    e := e + DownsampleCommands(size, times, TempTargetCount(times));
    cmd.commands := cmd.commands + [LaplacianTarget(Downsampled(size, downsampleFactor)), FalloffGradient];
    AppendAssoc(c0, e, [LaplacianTarget(Downsampled(size, downsampleFactor)), FalloffGradient]);
    e := e + [LaplacianTarget(Downsampled(size, downsampleFactor)), FalloffGradient];
    RecordLaplacianBlur(cmd, laplacianBlurRadius / 4.0);
    AppendAssoc(c0, e, LaplacianBlurs(BlurSchedule(0.0, laplacianBlurRadius / 4.0)));
    e := e + LaplacianBlurs(BlurSchedule(0.0, laplacianBlurRadius / 4.0));
    cmd.commands := cmd.commands + [Laplacian, BlurPair(blurRadius / 4.0)];
    AppendAssoc(c0, e, [Laplacian, BlurPair(blurRadius / 4.0)]);
    e := e + [Laplacian, BlurPair(blurRadius / 4.0)];
    RecordRepeated(cmd, [ErosionPair], Ceil(blurRadius));
    AppendAssoc(c0, e, Repeated([ErosionPair], Iterations(Ceil(blurRadius))));
    e := e + Repeated([ErosionPair], Iterations(Ceil(blurRadius)));
    cmd.commands := cmd.commands + [RemapToUnitRange, FalloffPower, LaplacianSign];
    AppendAssoc(c0, e, [RemapToUnitRange, FalloffPower, LaplacianSign]);
    e := e + [RemapToUnitRange, FalloffPower, LaplacianSign];
    RecordRepeated(cmd, [ErosionPair], 1);
    AppendAssoc(c0, e, Repeated([ErosionPair], Iterations(1)));
    e := e + Repeated([ErosionPair], Iterations(1));
    cmd.commands := cmd.commands + [MaxCombine, EdgeDistanceMin];
    AppendAssoc(c0, e, [MaxCombine, EdgeDistanceMin]);
    e := e + [MaxCombine, EdgeDistanceMin];
  }

  // ---------------------------------------------------------------------------------
  // The motion-vector and compute parts of a frame
  // ---------------------------------------------------------------------------------

  /** The multiplier of the gradient pass: the negated reciprocal of the blurred
      gradient maximum, which exists for every radius and lies in [-1/0.13671875, -2]. */
  function GradientMultiplier(blurRadiusBase: real): (m: real)
    ensures -1.0 / 0.13671875 <= m <= -2.0
  {
    BlurredGradientMaximumBounds(blurRadiusBase);
    ReciprocalBounds(BlurredGradientMaximum(blurRadiusBase));
    -1.0 / BlurredGradientMaximum(blurRadiusBase)
  }

  lemma ReciprocalBounds(x: real)
    requires 0.13671875 <= x <= 0.5
    ensures -1.0 / 0.13671875 <= -1.0 / x <= -2.0
  {
    assert 1.0 / x <= 1.0 / 0.13671875 by {
      assert (1.0 / x) * x == 1.0;
      assert (1.0 / 0.13671875) * 0.13671875 == 1.0;
    }
    assert 1.0 / x >= 2.0 by {
      assert (1.0 / x) * x == 1.0;
    }
  }

  /** The motion-vector part of a frame: the motion vectors, ceil(blur radius) dilations
      with the below-epsilon passes, the indicator of the baked depth, its blur and its
      gradient scaled by the gradient multiplier. */
  function MotionCommands(blurRadius: real, horizontalPass: int, verticalPass: int): seq<Command>
  {
    [MotionVectorRender]
    + Repeated([DilationPair(horizontalPass, verticalPass)], Iterations(Ceil(blurRadius)))
    + [Indicator, BlurPair(blurRadius / 4.0), Gradient(GradientMultiplier(blurRadius / 4.0))]
  }

  method RecordMotion(cmd: CommandBuffer, blurRadius: real, horizontalPass: int, verticalPass: int)
    modifies cmd
    ensures cmd.commands == old(cmd.commands) + MotionCommands(blurRadius, horizontalPass, verticalPass)
  {
    ghost var c0 := cmd.commands;
    cmd.Add(MotionVectorRender);
    ghost var e: seq<Command> := [MotionVectorRender];
    var block := [DilationPair(horizontalPass, verticalPass)];
    RecordRepeated(cmd, block, Ceil(blurRadius));
    AppendAssoc(c0, e, Repeated(block, Iterations(Ceil(blurRadius))));
    e := e + Repeated(block, Iterations(Ceil(blurRadius)));
    RecordIndicatorGradient(cmd, blurRadius / 4.0);
    AppendAssoc(c0, e, [Indicator, BlurPair(blurRadius / 4.0), Gradient(GradientMultiplier(blurRadius / 4.0))]);
  }

  /** The indicator, its blur and its gradient, scaled by the negated reciprocal of the
      blurred gradient maximum. */
  method RecordIndicatorGradient(cmd: CommandBuffer, blurRadiusBase: real)
    modifies cmd
    ensures cmd.commands == old(cmd.commands) + [Indicator, BlurPair(blurRadiusBase), Gradient(GradientMultiplier(blurRadiusBase))]
  {
    var blurredGradientMaximum := GetBlurredGradientMaximum(blurRadiusBase);
    BlurredGradientMaximumBounds(blurRadiusBase);
    cmd.commands := cmd.commands + [Indicator, BlurPair(blurRadiusBase), Gradient(-1.0 / blurredGradientMaximum)];
  }

  /** The displacement loop: 1 + the extra passes, each a height decode followed by the
      displacement kernel. */
  function DisplacementPass(kernels: KernelIds, heightDecodePass: int): seq<Command>
  {
    [HeightDecode(heightDecodePass)] + DispatchOf(Displacement, kernels.displacement)
  }

  method RecordDisplacementPasses(cmd: CommandBuffer, kernels: KernelIds, heightDecodePass: int, numberOfPasses: int)
    modifies cmd
    ensures cmd.commands == old(cmd.commands) + Repeated(DisplacementPass(kernels, heightDecodePass), Iterations(numberOfPasses))
  {
    var displacementIndex := 0;
    while displacementIndex < numberOfPasses
      invariant 0 <= displacementIndex <= Iterations(numberOfPasses)
      invariant cmd.commands == old(cmd.commands) + Repeated(DisplacementPass(kernels, heightDecodePass), displacementIndex)
    {
      ghost var before := cmd.commands;
      cmd.Add(HeightDecode(heightDecodePass));
      var dispatched := DispatchComputeDisplacement(cmd, Displacement, kernels.displacement);
      assert cmd.commands == before + DisplacementPass(kernels, heightDecodePass);
      AppendAssoc(old(cmd.commands), Repeated(DisplacementPass(kernels, heightDecodePass), displacementIndex), DisplacementPass(kernels, heightDecodePass));
      displacementIndex := displacementIndex + 1;
    }
  }

  /** The velocity kernels, in the order decode, clear, update. */
  function VelocityCommands(kernels: KernelIds): seq<Command>
  {
    DispatchOf(VelocityDecode, kernels.velocityDecode)
    + DispatchOf(VelocityClear, kernels.velocityClear)
    + DispatchOf(VelocityUpdate, kernels.velocityUpdate)
  }

  /** The compute part of a frame: the jitter, the pending height encoding, the
      velocity kernels, the displacement passes, the spread pass, one of the two
      minimum kernels and a last height decode. */
  function ComputeCommands(kernels: KernelIds, heightDecodePass: int, jitter: Vec2, performedHeightEncoding: bool,
                           simulateVelocity: bool, numExtraDisplacementPasses: int,
                           useHeightSpreadPass: bool, falloffMinimum: bool): seq<Command>
  {
    [JitterSet(jitter)]
    + (if performedHeightEncoding then [] else DispatchOf(HeightEncode, kernels.heightEncode))
    + (if simulateVelocity then VelocityCommands(kernels) else [])
    + Repeated(DisplacementPass(kernels, heightDecodePass), Iterations(WrapInt32(1 + numExtraDisplacementPasses)))
    + ComputeTailCommands(kernels, heightDecodePass, useHeightSpreadPass, falloffMinimum)
  }

  /** The end of the compute part: the spread pass, one of the two minimum kernels and
      a last height decode. */
  function ComputeTailCommands(kernels: KernelIds, heightDecodePass: int, useHeightSpreadPass: bool, falloffMinimum: bool): seq<Command>
  {
    (if useHeightSpreadPass
     then [HeightDecode(heightDecodePass)] + DispatchOf(HeightAboveOneSpread, kernels.heightAboveOneSpread)
     else [])
    + MinimumCommands(kernels, falloffMinimum)
    + [HeightDecode(heightDecodePass)]
  }

  function MinimumCommands(kernels: KernelIds, falloffMinimum: bool): seq<Command>
  {
    if falloffMinimum then DispatchOf(MinimumWithFalloffMask, kernels.minimumWithFalloffMask)
    else DispatchOf(Minimum, kernels.minimum)
  }

  method RecordComputeTail(cmd: CommandBuffer, kernels: KernelIds, heightDecodePass: int, useHeightSpreadPass: bool, falloffMinimum: bool)
    modifies cmd
    ensures cmd.commands == old(cmd.commands) + ComputeTailCommands(kernels, heightDecodePass, useHeightSpreadPass, falloffMinimum)
  {
    ghost var e: seq<Command> := [];
    if useHeightSpreadPass {
      cmd.Add(HeightDecode(heightDecodePass));
      var dispatched := DispatchComputeDisplacement(cmd, HeightAboveOneSpread, kernels.heightAboveOneSpread);
      e := [HeightDecode(heightDecodePass)] + DispatchOf(HeightAboveOneSpread, kernels.heightAboveOneSpread);
    }
    ghost var c1 := cmd.commands;
    if falloffMinimum {
      var dispatched := DispatchComputeDisplacement(cmd, MinimumWithFalloffMask, kernels.minimumWithFalloffMask);
    } else {
      var dispatched := DispatchComputeDisplacement(cmd, Minimum, kernels.minimum);
    }
    AppendAssoc(old(cmd.commands), e, MinimumCommands(kernels, falloffMinimum));
    e := e + MinimumCommands(kernels, falloffMinimum);
    cmd.Add(HeightDecode(heightDecodePass));
    AppendAssoc(old(cmd.commands), e, [HeightDecode(heightDecodePass)]);
  }

  // ---------------------------------------------------------------------------------
  // The snow renderers' bounds
  // ---------------------------------------------------------------------------------

  const Zero3: Vec3 := Vec3(0.0, 0.0, 0.0)

  /** `new Bounds(Vector3.zero, Vector3.zero)`. */
  const EmptyBounds: Bounds := Bounds(Zero3, Zero3)

  predicate HasZeroSize(b: Bounds)
  {
    b.min == b.max
  }

  /** Bounds.Encapsulate: the smallest box holding both boxes. */
  function Encapsulate(a: Bounds, b: Bounds): Bounds
  {
    Bounds(Vec3(Min(a.min.x, b.min.x), Min(a.min.y, b.min.y), Min(a.min.z, b.min.z)),
           Vec3(Max(a.max.x, b.max.x), Max(a.max.y, b.max.y), Max(a.max.z, b.max.z)))
  }

  /** One step of Setup's bounds loop: a renderer's bounds replace bounds of zero size
      and are encapsulated into any others. */
  function Absorb(acc: Bounds, b: Bounds): Bounds
  {
    if HasZeroSize(acc) then b else Encapsulate(acc, b)
  }

  /** The bounds Setup aggregates over the snow renderers, in order. */
  function RenderersBounds(renderers: seq<Bounds>): Bounds
  {
    if renderers == [] then EmptyBounds
    else Absorb(RenderersBounds(renderers[..|renderers| - 1]), renderers[|renderers| - 1])
  }

  predicate WellFormed(b: Bounds)
  {
    b.min.x <= b.max.x && b.min.y <= b.max.y && b.min.z <= b.max.z
  }

  predicate Contains(outer: Bounds, inner: Bounds)
  {
    && outer.min.x <= inner.min.x && outer.min.y <= inner.min.y && outer.min.z <= inner.min.z
    && inner.max.x <= outer.max.x && inner.max.y <= outer.max.y && inner.max.z <= outer.max.z
  }

  /** Setup's loop over the snow renderers. */
  method EncapsulateRenderers(renderers: seq<Bounds>) returns (bounds: Bounds)
    ensures bounds == RenderersBounds(renderers)
  {
    bounds := EmptyBounds;
    var i := 0;
    while i < |renderers|
      invariant 0 <= i <= |renderers|
      invariant bounds == RenderersBounds(renderers[..i])
    {
      assert renderers[..i + 1][..i] == renderers[..i];
      if HasZeroSize(bounds) {
        bounds := renderers[i];
      } else {
        bounds := Encapsulate(bounds, renderers[i]);
      }
      i := i + 1;
    }
    assert renderers[..|renderers|] == renderers;
  }

  /** The aggregated bounds contain every renderer's bounds that are not of zero size,
      and have zero size only when every renderer's have. */
  lemma {:induction false} RenderersBoundsCover(renderers: seq<Bounds>)
    requires forall j :: 0 <= j < |renderers| ==> WellFormed(renderers[j])
    ensures WellFormed(RenderersBounds(renderers))
    ensures forall j :: 0 <= j < |renderers| && !HasZeroSize(renderers[j]) ==> Contains(RenderersBounds(renderers), renderers[j])
    ensures HasZeroSize(RenderersBounds(renderers)) ==> forall j :: 0 <= j < |renderers| ==> HasZeroSize(renderers[j])
    decreases |renderers|
  {
    if renderers != [] {
      var n := |renderers| - 1;
      var prefix := renderers[..n];
      assert forall j :: 0 <= j < n ==> prefix[j] == renderers[j];
      RenderersBoundsCover(prefix);
      var acc := RenderersBounds(prefix);
      var b := renderers[n];
      if !HasZeroSize(acc) {
        EncapsulateGrows(acc, b);
      }
    }
  }

  lemma EncapsulateGrows(a: Bounds, b: Bounds)
    requires WellFormed(a) && WellFormed(b) && !HasZeroSize(a)
    ensures WellFormed(Encapsulate(a, b)) && !HasZeroSize(Encapsulate(a, b))
    ensures Contains(Encapsulate(a, b), a) && Contains(Encapsulate(a, b), b)
    ensures forall c :: Contains(a, c) ==> Contains(Encapsulate(a, b), c)
  {
  }

  // ---------------------------------------------------------------------------------
  // Settings and the values Setup captures
  // ---------------------------------------------------------------------------------

  /** The serialized settings the pass reads. */
  datatype Settings = Settings(
    textureEdgeSize: int,
    edgeFalloffDownsampleTimes: nat,
    falloffLaplacianBlurRadius: real,
    falloffAtEdges: bool,
    useSmoothedNormalGeneration: bool,
    displacementComputeShader: Option<ComputeShader>,
    simulateVelocity: bool,
    render: bool,
    blurRadius: real,
    numExtraDisplacementPasses: int,
    useHeightSpreadPass: bool,
    approximateSweptArea: bool)

  /** The field initialisers' values, with no compute shader assigned. */
  const DefaultSettings: Settings :=
    Settings(2048, 1, 16.0, true, true, None, true, true, 4.0, 0, true, true)

  /** The copies Setup takes, so that Execute is unaffected by later edits. */
  datatype Captured = Captured(
    falloffAtEdges: bool,
    useSmoothedNormalGeneration: bool,
    computeShader: Option<ComputeShader>,
    simulateVelocity: bool)

  function CapturedAtSetup(s: Settings): Captured
  {
    Captured(s.falloffAtEdges, s.useSmoothedNormalGeneration, s.displacementComputeShader, s.simulateVelocity)
  }

  /** The edge-falloff texture's size: the texture size over 2^times. */
  function EdgeFalloffTextureSize(textureSize: Vec2Int, times: nat): Vec2Int
  {
    Downsampled(textureSize, DownsampleFactor(times))
  }

  /** The unit-square jitter at a generator index: the Halton values in bases 3 and 5. */
  function JitterAt(index: int): Vec2
  {
    Vec2(LDS.Halton(index, 3), LDS.Halton(index, 5))
  }

  /** What one Execute reads of the pass. */
  datatype FrameState = FrameState(
    settings: Settings,
    captured: Captured,
    textureSize: Vec2Int,
    hasEdgeFalloffTexture: bool,
    templateLayerCount: int,
    kernels: KernelIds,
    passes: PassIds,
    performedGroundBake: bool,
    performedHeightEncoding: bool,
    jitterIndex: int)

  /** The ground bake, with the edge-falloff build when falloff at the edges is on, if
      it has not been done since Setup. */
  function GroundBakeCommands(f: FrameState): seq<Command>
  {
    if f.performedGroundBake then []
    else [GroundBake] + (if f.captured.falloffAtEdges
                         then EdgeFalloffCommands(f.textureSize, f.settings.edgeFalloffDownsampleTimes,
                                                  f.settings.falloffLaplacianBlurRadius, f.settings.blurRadius)
                         else [])
  }

  /** The swept-area copy and its kernel, when the swept area is approximated. */
  function SweptAreaCommands(computeShader: Option<ComputeShader>, approximateSweptArea: bool, kernels: KernelIds): seq<Command>
  {
    if ApproximateSweptArea(computeShader, approximateSweptArea)
    then [SweepAreaCopy] + DispatchOf(SweepArea, kernels.sweepArea)
    else []
  }

  method RecordSweptArea(cmd: CommandBuffer, computeShader: Option<ComputeShader>, approximateSweptArea: bool, kernels: KernelIds)
    modifies cmd
    ensures cmd.commands == old(cmd.commands) + SweptAreaCommands(computeShader, approximateSweptArea, kernels)
  {
    if ApproximateSweptArea(computeShader, approximateSweptArea) {
      cmd.Add(SweepAreaCopy);
      var dispatched := DispatchComputeDisplacement(cmd, SweepArea, kernels.sweepArea);
    }
  }

  /** The height render, the motion vectors when they are captured, and the depth blur. */
  function RenderCommands(captureMotionVectors: bool, blurRadius: real, passes: PassIds): seq<Command>
  {
    [HeightRender]
    + (if captureMotionVectors
       then MotionCommands(blurRadius, passes.horizontalDilationBelowEpsilon, passes.verticalDilationBelowEpsilon)
       else [])
    + [BlurPair(blurRadius / 4.0)]
  }

  method RecordRenders(cmd: CommandBuffer, captureMotionVectors: bool, blurRadius: real, passes: PassIds)
    modifies cmd
    ensures cmd.commands == old(cmd.commands) + RenderCommands(captureMotionVectors, blurRadius, passes)
  {
    var blurRadiusBase := blurRadius / 4.0;
    cmd.Add(HeightRender);
    ghost var c1 := cmd.commands;
    ghost var motion: seq<Command> := [];
    if captureMotionVectors {
      RecordMotion(cmd, blurRadius, passes.horizontalDilationBelowEpsilon, passes.verticalDilationBelowEpsilon);
      motion := MotionCommands(blurRadius, passes.horizontalDilationBelowEpsilon, passes.verticalDilationBelowEpsilon);
    }
    AppendAssoc(old(cmd.commands), [HeightRender], motion);
    cmd.Add(BlurPair(blurRadiusBase));
    AppendAssoc(old(cmd.commands), [HeightRender] + motion, [BlurPair(blurRadiusBase)]);
  }

  function FrameComputeCommands(f: FrameState): seq<Command>
  {
    var cs := f.captured.computeShader;
    if UpdateMaskHeightFromComputeShader(cs)
    then ComputeCommands(f.kernels, f.passes.heightDecode, JitterAt(f.jitterIndex), f.performedHeightEncoding,
                         SimulateVelocity(f.captured.simulateVelocity, cs), f.settings.numExtraDisplacementPasses,
                         f.settings.useHeightSpreadPass, f.captured.falloffAtEdges && f.hasEdgeFalloffTexture)
    else []
  }

  /** The output passes: the mask height update when there is no compute shader to do
      it, then the layer mask and the detail normals. */
  function OutputCommands(computeShader: Option<ComputeShader>, passes: PassIds, templateLayerCount: int, smoothed: bool): seq<Command>
  {
    (if UpdateMaskHeightFromComputeShader(computeShader) then [] else [MaskHeightUpdate(passes.maskHeightUpdate)])
    + [LayerMaskUpdate(LayerMaskPass(passes, templateLayerCount, UpdateLayerMaskFromFinalMaskHeight(computeShader))),
       DetailNormalUpdate(DetailNormalPass(passes, smoothed))]
  }

  /** A frame up to the compute part: the pending ground bake, the height render, the
      motion vectors, the depth blur and the swept-area approximation. */
  function FrameStartCommands(f: FrameState): seq<Command>
  {
    GroundBakeCommands(f)
    + RenderCommands(CaptureMotionVectors(f.captured.computeShader), f.settings.blurRadius, f.passes)
    + SweptAreaCommands(f.captured.computeShader, f.settings.approximateSweptArea, f.kernels)
  }

  lemma FrameStartUnfolds(f: FrameState)
    ensures FrameStartCommands(f)
         == GroundBakeCommands(f)
            + RenderCommands(CaptureMotionVectors(f.captured.computeShader), f.settings.blurRadius, f.passes)
            + SweptAreaCommands(f.captured.computeShader, f.settings.approximateSweptArea, f.kernels)
  {
  }

  /** A frame after the compute part: the smoothed normal gradient and the outputs. */
  function FrameEndCommands(f: FrameState): seq<Command>
  {
    (if f.captured.useSmoothedNormalGeneration then [NormalGradient] else [])
    + OutputCommands(f.captured.computeShader, f.passes, f.templateLayerCount, f.captured.useSmoothedNormalGeneration)
  }

  /** Everything one Execute that passes its guards records, in order. */
  function FrameCommands(f: FrameState): seq<Command>
  {
    FrameStartCommands(f) + FrameComputeCommands(f) + FrameEndCommands(f)
  }

  method RecordFrameEnd(cmd: CommandBuffer, computeShader: Option<ComputeShader>, passes: PassIds, templateLayerCount: int, smoothed: bool)
    modifies cmd
    ensures cmd.commands == old(cmd.commands)
                            + ((if smoothed then [NormalGradient] else []) + OutputCommands(computeShader, passes, templateLayerCount, smoothed))
  {
    ghost var e: seq<Command> := [];
    if smoothed {
      cmd.Add(NormalGradient);
      e := [NormalGradient];
    }
    ghost var c1 := cmd.commands;
    if !UpdateMaskHeightFromComputeShader(computeShader) {
      cmd.Add(MaskHeightUpdate(passes.maskHeightUpdate));
    }
    cmd.Add(LayerMaskUpdate(LayerMaskPass(passes, templateLayerCount, UpdateLayerMaskFromFinalMaskHeight(computeShader))));
    cmd.Add(DetailNormalUpdate(DetailNormalPass(passes, smoothed)));
    assert cmd.commands == c1 + OutputCommands(computeShader, passes, templateLayerCount, smoothed);
    AppendAssoc(old(cmd.commands), e, OutputCommands(computeShader, passes, templateLayerCount, smoothed));
  }

  /** What the next frame reads after one guarded Execute: the ground bake is done, the
      height encoding is done once its kernel has been dispatched, and with a compute
      shader the jitter index has advanced. */
  function NextFrameState(f: FrameState): FrameState
  {
    var cs := f.captured.computeShader;
    f.(performedGroundBake := true,
       performedHeightEncoding := f.performedHeightEncoding || (cs.Some? && f.kernels.heightEncode >= 0),
       jitterIndex := if cs.Some? then WrapInt32(f.jitterIndex + 1) else f.jitterIndex)
  }

  // ---------------------------------------------------------------------------------
  // The pass
  // ---------------------------------------------------------------------------------

  /** Whether the validation of the template's layers throws: its checks only log, but
      with more than three layers a throwing getter of a compared layer-2 or layer-3 key
      escapes the comparison of those layers. */
  predicate ValidationThrows(t: Material, layerCount: int)
  {
    layerCount > 3 &&
    exists i :: 0 <= i < |MU.ComparedPairs| &&
      (MU.PairKey(MU.ComparedPairs[i], 2) in t.failing || MU.PairKey(MU.ComparedPairs[i], 3) in t.failing)
  }

  /** ValidateSnowLayers: the height-range comparison of layers 1 and 2, the property
      validation and, with more than three layers, the comparison of layers 2 and 3. Their
      verdicts only feed warnings; what reaches Setup is whether an exception escaped. */
  method ValidateSnowLayers(t: Material, layerCount: int) returns (completes: bool)
    ensures completes <==> !ValidationThrows(t, layerCount)
  {
    var sameRange := HeightRangeOfLayer(t, 2) == HeightRangeOfLayer(t, 1);
    var propertiesExist := MU.ValidateSnowLayersProperties(t, layerCount);
    completes := true;
    if layerCount > 3 {
      var equal := MU.ValidateLayers2And3Equal(t);
      MU.CompareAllMeaning(t, MU.ComparedPairs);
      completes := equal.Some?;
    }
  }

  /** Whether Setup reaches the allocation of the baked textures: it must run in play
      mode, with a root and a template of at least three layers whose validation does not
      throw, and find snow renderers whose bounds are not degenerate horizontally. */
  predicate SetupCompletes(isPlaying: bool, hasRoot: bool, template: Option<Material>, snowRenderers: seq<Bounds>)
  {
    && isPlaying && hasRoot && template.Some?
    && TemplateHeightRange(template.value).1 >= 3
    && !ValidationThrows(template.value, TemplateHeightRange(template.value).1)
    && |snowRenderers| > 0
    && Max(RenderersBounds(snowRenderers).HorizontalSize().x, RenderersBounds(snowRenderers).HorizontalSize().y) > 0.0
  }

  function BoundsTextureSize(b: Bounds, textureEdgeSize: int): Vec2Int
    requires Max(b.HorizontalSize().x, b.HorizontalSize().y) > 0.0
  {
    TextureSize(b.HorizontalSize(), textureEdgeSize)
  }

  /** The compute resources of Setup: with a compute shader, a fresh jitter generator
      at index 30 in bases 3 and 5 and the kernel ids; without one, nothing new. */
  method CreateComputeResources(computeShader: Option<ComputeShader>, simulateVelocity: bool,
                                previousKernels: KernelIds, previousSequence: LDS.LowDiscrepancySequence?)
    returns (kernels: KernelIds, sequence: LDS.LowDiscrepancySequence?)
    ensures computeShader.Some? ==>
              && fresh(sequence) && sequence.Valid() && sequence.sequenceIndex == 30
              && sequence.sequenceBase1 == 3 && sequence.sequenceBase2 == 5
              && kernels == SetupKernelIds(computeShader.value, simulateVelocity, previousKernels)
              && KernelsResolve(kernels, computeShader.value, simulateVelocity)
              && Dispatchable(kernels, simulateVelocity)
    ensures computeShader.None? ==> kernels == previousKernels && sequence == previousSequence
  {
    kernels, sequence := previousKernels, previousSequence;
    if CaptureMotionVectors(computeShader) {
      sequence := new LDS.LowDiscrepancySequence(30, 3, 5);
    }
    if UpdateMaskHeightFromComputeShader(computeShader) {
      kernels := SetupKernelIds(computeShader.value, SimulateVelocity(simulateVelocity, computeShader), previousKernels);
      SetupKernelIdsValid(computeShader.value, simulateVelocity, previousKernels);
    }
  }

  class SnowDepthBakeCustomPass {
    var settings: Settings
    var captured: Captured
    /** Whether Setup has allocated the depth-capture buffer and the baking camera. */
    var ready: bool
    var templateSnowRange: Vec2
    var templateLayerCount: int
    var renderersBounds: Bounds
    var textureSize: Vec2Int
    /** The edge-falloff texture's size, once Setup has created it. */
    var edgeFalloffTextureSize: Option<Vec2Int>
    var lowDiscrepancySequence: LDS.LowDiscrepancySequence?
    /** The compute-kernel ids Setup created, each as the index it converts to. */
    var kernels: KernelIds
    /** The shader-pass ids Setup created, each as the index it converts to. */
    var passes: PassIds
    var performedGroundBake: bool
    var performedHeightEncoding: bool

    /** Once Setup has allocated the textures, the edge-falloff texture exists exactly
        when falloff at the edges was on, and with a compute shader the jitter generator
        exists and draws in bases 3 and 5. */
    ghost predicate Valid()
      reads this, lowDiscrepancySequence
    {
      && (!ready ==> edgeFalloffTextureSize == None)
      && (ready ==> edgeFalloffTextureSize ==
                      (if captured.falloffAtEdges
                       then Some(EdgeFalloffTextureSize(textureSize, settings.edgeFalloffDownsampleTimes))
                       else None))
      && (ready ==> passes == FallbackPassIds)
      && (ready && captured.computeShader.Some? ==>
            && KernelsResolve(kernels, captured.computeShader.value, captured.simulateVelocity)
            && Dispatchable(kernels, captured.simulateVelocity)
            && lowDiscrepancySequence != null && lowDiscrepancySequence.Valid()
            && lowDiscrepancySequence.sequenceBase1 == 3 && lowDiscrepancySequence.sequenceBase2 == 5)
    }

    /** Everything but the two flags: what Execute leaves alone. */
    ghost function Configuration(): (Settings, Captured, bool, Vec2, int, Bounds, Vec2Int, Option<Vec2Int>,
                                     KernelIds, PassIds, LDS.LowDiscrepancySequence?)
      reads this
    {
      (settings, captured, ready, templateSnowRange, templateLayerCount, renderersBounds, textureSize,
       edgeFalloffTextureSize, kernels, passes, lowDiscrepancySequence)
    }

    ghost function State(): FrameState
      reads this, lowDiscrepancySequence
    {
      FrameState(settings, captured, textureSize, edgeFalloffTextureSize.Some?, templateLayerCount,
                 kernels, passes, performedGroundBake, performedHeightEncoding,
                 if lowDiscrepancySequence != null then lowDiscrepancySequence.sequenceIndex else 0)
    }

    /** A pass as created, before any Setup: the field initialisers' values. */
    constructor (settings: Settings)
      ensures Valid()
      ensures this.settings == settings && captured == Captured(true, true, None, true)
      ensures !ready && !performedGroundBake && !performedHeightEncoding
      ensures edgeFalloffTextureSize == None && lowDiscrepancySequence == null
      ensures kernels == NoKernelIds && passes == NoPassIds
    {
      this.settings := settings;
      captured := Captured(true, true, None, true);
      ready := false;
      templateSnowRange := Zero2;
      templateLayerCount := 0;
      renderersBounds := EmptyBounds;
      textureSize := Vec2Int(0, 0);
      edgeFalloffTextureSize := None;
      lowDiscrepancySequence := null;
      kernels := NoKernelIds;
      passes := NoPassIds;
      performedGroundBake := false;
      performedHeightEncoding := false;
    }

    /** Setup: outside play mode nothing changes. Otherwise it captures the settings and
        creates the pass ids; with a root and a template it reads the template's range
        and layer count; with three layers or more it validates them, stops where the
        validation throws, and otherwise aggregates the snow renderers'
        bounds; with snow renderers it sizes the textures, creates the edge-falloff
        texture, the jitter generator and the kernel ids as the captured flags ask, and
        resets both once-per-Setup flags. */
    method Setup(isPlaying: bool, hasRoot: bool, template: Option<Material>, snowRenderers: seq<Bounds>)
      requires Valid() && !ready
      modifies this
      ensures Valid()
      ensures settings == old(settings)
      ensures captured == (if isPlaying then CapturedAtSetup(settings) else old(captured))
      ensures passes == (if isPlaying then FallbackPassIds else old(passes))
      ensures isPlaying && hasRoot && template.Some? ==>
                (templateSnowRange, templateLayerCount) == TemplateHeightRange(template.value)
      ensures !(isPlaying && hasRoot && template.Some?) ==>
                templateSnowRange == old(templateSnowRange) && templateLayerCount == old(templateLayerCount)
      ensures isPlaying && hasRoot && template.Some? && TemplateHeightRange(template.value).1 >= 3 ==>
                renderersBounds ==
                  (if ValidationThrows(template.value, TemplateHeightRange(template.value).1)
                   then old(renderersBounds) else RenderersBounds(snowRenderers))
      ensures ready <==> SetupCompletes(isPlaying, hasRoot, template, snowRenderers)
      ensures ready ==>
                && textureSize == BoundsTextureSize(renderersBounds, settings.textureEdgeSize)
                && !performedGroundBake && !performedHeightEncoding
                && (captured.computeShader.Some? ==>
                      && fresh(lowDiscrepancySequence) && lowDiscrepancySequence.sequenceIndex == 30
                      && kernels == SetupKernelIds(captured.computeShader.value, captured.simulateVelocity, old(kernels)))
                && (captured.computeShader.None? ==> kernels == old(kernels))
      ensures !ready ==>
                && textureSize == old(textureSize) && lowDiscrepancySequence == old(lowDiscrepancySequence)
                && kernels == old(kernels)
                && performedGroundBake == old(performedGroundBake)
                && performedHeightEncoding == old(performedHeightEncoding)
    {
      if !isPlaying {
        return;
      }
      captured := CapturedAtSetup(settings);
      passes := SetupPassIds();
      if !hasRoot || template.None? {
        return;
      }
      var range := TemplateHeightRange(template.value);
      templateSnowRange, templateLayerCount := range.0, range.1;
      if templateLayerCount < 3 {
        return;
      }
      var validationCompletes := ValidateSnowLayers(template.value, templateLayerCount);
      if !validationCompletes {
        return;
      }
      renderersBounds := EncapsulateRenderers(snowRenderers);
      if |snowRenderers| == 0 {
        return;
      }
      var boundsSize2D := renderersBounds.HorizontalSize();
      if Max(boundsSize2D.x, boundsSize2D.y) <= 0.0 {
        return;
      }
      AllocateTextures();
    }

    /** The end of Setup: the texture sizes, the edge-falloff texture, the jitter
        generator, the kernel ids and the reset of both once-per-Setup flags. */
    method AllocateTextures()
      requires Valid() && !ready && passes == FallbackPassIds
      requires Max(renderersBounds.HorizontalSize().x, renderersBounds.HorizontalSize().y) > 0.0
      modifies this
      ensures Valid() && ready
      ensures settings == old(settings) && captured == old(captured) && renderersBounds == old(renderersBounds)
      ensures templateSnowRange == old(templateSnowRange) && templateLayerCount == old(templateLayerCount)
      ensures passes == old(passes)
      ensures textureSize == BoundsTextureSize(renderersBounds, settings.textureEdgeSize)
      ensures !performedGroundBake && !performedHeightEncoding
      ensures captured.computeShader.Some? ==>
                && fresh(lowDiscrepancySequence) && lowDiscrepancySequence.sequenceIndex == 30
                && kernels == SetupKernelIds(captured.computeShader.value, captured.simulateVelocity, old(kernels))
      ensures captured.computeShader.None? ==>
                lowDiscrepancySequence == old(lowDiscrepancySequence) && kernels == old(kernels)
    {
      var size := TextureSize(renderersBounds.HorizontalSize(), settings.textureEdgeSize);
      var falloffSize := None;
      if captured.falloffAtEdges {
        var downsampleFactor := DownsampleFactor(settings.edgeFalloffDownsampleTimes);
        falloffSize := Some(Downsampled(size, downsampleFactor));
      }
      var ids, sequence := CreateComputeResources(captured.computeShader, captured.simulateVelocity,
                                                  kernels, lowDiscrepancySequence);
      textureSize, ready, edgeFalloffTextureSize := size, true, falloffSize;
      kernels, lowDiscrepancySequence := ids, sequence;
      performedGroundBake, performedHeightEncoding := false, false;
    }

    predicate Runs(isPlaying: bool, isBakingCamera: bool)
      reads this
    {
      ready && settings.render && !isBakingCamera && isPlaying
    }

    /** The ground bake, followed by the edge-falloff build when falloff at the edges
        was captured, once per Setup. */
    method RecordGroundBake(cmd: CommandBuffer)
      requires ready
      modifies this`performedGroundBake, cmd
      ensures performedGroundBake
      ensures cmd.commands == old(cmd.commands) + GroundBakeCommands(old(State()))
    {
      ghost var f := State();
      if !performedGroundBake {
        cmd.Add(GroundBake);
        performedGroundBake := true;
        ghost var edgeFalloff: seq<Command> := [];
        if captured.falloffAtEdges {
          RecordEdgeFalloff(cmd, textureSize, settings.edgeFalloffDownsampleTimes,
                            settings.falloffLaplacianBlurRadius, settings.blurRadius);
          edgeFalloff := EdgeFalloffCommands(textureSize, settings.edgeFalloffDownsampleTimes,
                                             settings.falloffLaplacianBlurRadius, settings.blurRadius);
        }
        assert GroundBakeCommands(f) == [GroundBake] + edgeFalloff;
        AppendAssoc(old(cmd.commands), [GroundBake], edgeFalloff);
      }
    }

    /** The part of a frame before the compute shader's. */
    method RecordFrameStart(cmd: CommandBuffer)
      requires ready
      modifies this`performedGroundBake, cmd
      ensures performedGroundBake
      ensures cmd.commands == old(cmd.commands) + FrameStartCommands(old(State()))
    {
      ghost var f := State();
      ghost var c0 := cmd.commands;
      var computeShader, blurRadius, approximate := captured.computeShader, settings.blurRadius, settings.approximateSweptArea;
      RecordGroundBake(cmd);
      RecordRenders(cmd, CaptureMotionVectors(computeShader), blurRadius, passes);
      AppendAssoc(c0, GroundBakeCommands(f), RenderCommands(CaptureMotionVectors(computeShader), blurRadius, passes));
      RecordSweptArea(cmd, computeShader, approximate, kernels);
      AppendAssoc(c0, GroundBakeCommands(f) + RenderCommands(CaptureMotionVectors(computeShader), blurRadius, passes),
                  SweptAreaCommands(computeShader, approximate, kernels));
      FrameStartUnfolds(f);
    }

    /** Draws the next jitter from the generator, which advances once. */
    method NextJitter() returns (jitter: Vec2)
      requires Valid() && ready && captured.computeShader.Some?
      modifies lowDiscrepancySequence
      ensures Valid()
      ensures jitter == JitterAt(old(lowDiscrepancySequence.sequenceIndex))
      ensures lowDiscrepancySequence.sequenceIndex == WrapInt32(old(lowDiscrepancySequence.sequenceIndex) + 1)
    {
      jitter := lowDiscrepancySequence.GetNextValues2();
    }

    /** The compute part of Execute. */
    method RecordCompute(cmd: CommandBuffer)
      requires Valid() && ready && captured.computeShader.Some?
      modifies this, lowDiscrepancySequence, cmd
      ensures Valid() && Configuration() == old(Configuration())
      ensures performedGroundBake == old(performedGroundBake)
      ensures performedHeightEncoding == (old(performedHeightEncoding) || kernels.heightEncode >= 0)
      ensures lowDiscrepancySequence.sequenceIndex == WrapInt32(old(lowDiscrepancySequence.sequenceIndex) + 1)
      ensures cmd.commands == old(cmd.commands) + FrameComputeCommands(old(State()))
    {
      ghost var f := State();
      var unitSquareJitter := NextJitter();
      performedHeightEncoding := RecordComputeCommands(
        cmd, kernels, passes.heightDecode, unitSquareJitter, performedHeightEncoding,
        SimulateVelocity(captured.simulateVelocity, captured.computeShader), settings.numExtraDisplacementPasses,
        settings.useHeightSpreadPass, captured.falloffAtEdges && edgeFalloffTextureSize.Some?);
    }

    /** Execute: unless Setup has allocated the textures, rendering is on and the camera
        is not the baking camera, and the application is playing, nothing happens.
        Otherwise the frame's commands are recorded, the ground bake is marked done, the
        height encoding is marked done once its kernel has been dispatched, and with a
        compute shader the jitter generator advances once. */
    method Execute(cmd: CommandBuffer, isPlaying: bool, isBakingCamera: bool)
      requires Valid()
      modifies this, lowDiscrepancySequence, cmd
      ensures Valid() && Configuration() == old(Configuration())
      ensures !Runs(isPlaying, isBakingCamera) ==>
                && cmd.commands == old(cmd.commands)
                && performedGroundBake == old(performedGroundBake)
                && performedHeightEncoding == old(performedHeightEncoding)
                && (lowDiscrepancySequence != null ==>
                      lowDiscrepancySequence.sequenceIndex == old(lowDiscrepancySequence.sequenceIndex))
      ensures Runs(isPlaying, isBakingCamera) ==>
                && cmd.commands == old(cmd.commands) + FrameCommands(old(State()))
                && performedGroundBake
                && performedHeightEncoding ==
                     (old(performedHeightEncoding) || (captured.computeShader.Some? && kernels.heightEncode >= 0))
                && (captured.computeShader.Some? ==>
                      lowDiscrepancySequence.sequenceIndex == WrapInt32(old(lowDiscrepancySequence.sequenceIndex) + 1))
                && (captured.computeShader.None? && lowDiscrepancySequence != null ==>
                      lowDiscrepancySequence.sequenceIndex == old(lowDiscrepancySequence.sequenceIndex))
                && State() == NextFrameState(old(State()))
    {
      if !ready || !settings.render || isBakingCamera {
        return;
      }
      if !isPlaying {
        return;
      }
      RecordFrame(cmd);
    }

    /** One frame of Execute, once its guards have passed. */
    method RecordFrame(cmd: CommandBuffer)
      requires Valid() && ready
      modifies this, lowDiscrepancySequence, cmd
      ensures Valid() && Configuration() == old(Configuration())
      ensures cmd.commands == old(cmd.commands) + FrameCommands(old(State()))
      ensures State() == NextFrameState(old(State()))
      ensures captured.computeShader.None? && lowDiscrepancySequence != null ==>
                lowDiscrepancySequence.sequenceIndex == old(lowDiscrepancySequence.sequenceIndex)
      ensures captured.computeShader.Some? ==>
                lowDiscrepancySequence.sequenceIndex == WrapInt32(old(lowDiscrepancySequence.sequenceIndex) + 1)
    {
      ghost var f := State();
      ghost var c0 := cmd.commands;
      RecordFrameStart(cmd);
      FrameIgnoresGroundBakeFlag(f);
      RecordComputePart(cmd);
      ghost var index := if lowDiscrepancySequence != null then lowDiscrepancySequence.sequenceIndex else 0;
      AppendAssoc(c0, FrameStartCommands(f), FrameComputeCommands(f));
      RecordFrameEnd(cmd, captured.computeShader, passes, templateLayerCount, captured.useSmoothedNormalGeneration);
      assert lowDiscrepancySequence != null ==> lowDiscrepancySequence.sequenceIndex == index;
      AppendAssoc(c0, FrameStartCommands(f) + FrameComputeCommands(f), FrameEndCommands(f));
    }

    /** The compute part of a frame when there is a compute shader, nothing otherwise. */
    method RecordComputePart(cmd: CommandBuffer)
      requires Valid() && ready
      modifies this, lowDiscrepancySequence, cmd
      ensures Valid() && Configuration() == old(Configuration())
      ensures cmd.commands == old(cmd.commands) + FrameComputeCommands(old(State()))
      ensures State() == NextFrameState(old(State())).(performedGroundBake := old(performedGroundBake))
      ensures captured.computeShader.None? && lowDiscrepancySequence != null ==>
                lowDiscrepancySequence.sequenceIndex == old(lowDiscrepancySequence.sequenceIndex)
      ensures captured.computeShader.Some? ==>
                lowDiscrepancySequence.sequenceIndex == WrapInt32(old(lowDiscrepancySequence.sequenceIndex) + 1)
    {
      if UpdateMaskHeightFromComputeShader(captured.computeShader) {
        RecordCompute(cmd);
      }
    }
  }

  /** The compute part and the end of a frame do not read the ground-bake flag. */
  lemma FrameIgnoresGroundBakeFlag(f: FrameState)
    ensures FrameComputeCommands(f.(performedGroundBake := true)) == FrameComputeCommands(f)
    ensures FrameEndCommands(f.(performedGroundBake := true)) == FrameEndCommands(f)
    ensures NextFrameState(f.(performedGroundBake := true)).(performedGroundBake := f.performedGroundBake)
            == NextFrameState(f).(performedGroundBake := f.performedGroundBake)
  {
  }

  /** Records the compute part of a frame; reports whether the height encoding has now
      been performed. */
  method RecordComputeCommands(cmd: CommandBuffer, kernels: KernelIds, heightDecodePass: int, jitter: Vec2,
                               performedHeightEncoding: bool, simulateVelocity: bool, numExtraDisplacementPasses: int,
                               useHeightSpreadPass: bool, falloffMinimum: bool)
    returns (encoded: bool)
    modifies cmd
    ensures encoded == (performedHeightEncoding || kernels.heightEncode >= 0)
    ensures cmd.commands == old(cmd.commands) + ComputeCommands(kernels, heightDecodePass, jitter, performedHeightEncoding,
                                                                simulateVelocity, numExtraDisplacementPasses,
                                                                useHeightSpreadPass, falloffMinimum)
  {
    ghost var c0 := cmd.commands;
    cmd.Add(JitterSet(jitter));
    ghost var e: seq<Command> := [JitterSet(jitter)];
    encoded := performedHeightEncoding;
    if !encoded {
      encoded := DispatchComputeDisplacement(cmd, HeightEncode, kernels.heightEncode);
    }
    ghost var piece: seq<Command> := if performedHeightEncoding then [] else DispatchOf(HeightEncode, kernels.heightEncode);
    AppendAssoc(c0, e, piece);
    e := e + piece;
    assert cmd.commands == c0 + e;
    if simulateVelocity {
      RecordVelocity(cmd, kernels);
    }
    piece := if simulateVelocity then VelocityCommands(kernels) else [];
    AppendAssoc(c0, e, piece);
    e := e + piece;
    assert cmd.commands == c0 + e;
    RecordDisplacementPasses(cmd, kernels, heightDecodePass, WrapInt32(1 + numExtraDisplacementPasses));
    piece := Repeated(DisplacementPass(kernels, heightDecodePass), Iterations(WrapInt32(1 + numExtraDisplacementPasses)));
    AppendAssoc(c0, e, piece);
    e := e + piece;
    assert cmd.commands == c0 + e;
    RecordComputeTail(cmd, kernels, heightDecodePass, useHeightSpreadPass, falloffMinimum);
    AppendAssoc(c0, e, ComputeTailCommands(kernels, heightDecodePass, useHeightSpreadPass, falloffMinimum));
  }

  method RecordVelocity(cmd: CommandBuffer, kernels: KernelIds)
    modifies cmd
    ensures cmd.commands == old(cmd.commands) + VelocityCommands(kernels)
  {
    var decoded := DispatchComputeDisplacement(cmd, VelocityDecode, kernels.velocityDecode);
    var cleared := DispatchComputeDisplacement(cmd, VelocityClear, kernels.velocityClear);
    var updated := DispatchComputeDisplacement(cmd, VelocityUpdate, kernels.velocityUpdate);
  }

  // ---------------------------------------------------------------------------------
  // What a sequence of frames records
  // ---------------------------------------------------------------------------------

  /** The kernels a command sequence dispatches, in order. */
  function Dispatched(cmds: seq<Command>): seq<Kernel>
  {
    if cmds == [] then []
    else (if cmds[0].Dispatch? then [cmds[0].kernel] else []) + Dispatched(cmds[1..])
  }

  /** `k` dispatched `n` times in a row. */
  function KernelRun(k: Kernel, n: nat): seq<Kernel>
  {
    if n == 0 then [] else KernelRun(k, n - 1) + [k]
  }

  lemma {:induction false} DispatchedAppend(a: seq<Command>, b: seq<Command>)
    ensures Dispatched(a + b) == Dispatched(a) + Dispatched(b)
  {
    if a == [] {
      assert a + b == b;
    } else {
      var head: seq<Kernel> := if a[0].Dispatch? then [a[0].kernel] else [];
      assert (a + b)[0] == a[0];
      assert (a + b)[1..] == a[1..] + b;
      DispatchedAppend(a[1..], b);
      calc {
        Dispatched(a + b);
        head + Dispatched(a[1..] + b);
        head + (Dispatched(a[1..]) + Dispatched(b));
        (head + Dispatched(a[1..])) + Dispatched(b);
        Dispatched(a) + Dispatched(b);
      }
    }
  }

  /** Every command of `block` recorded `n` times is a command of `block`. */
  lemma {:induction false} RepeatedElements(block: seq<Command>, n: nat)
    ensures forall c :: c in Repeated(block, n) ==> c in block
  {
    if n > 0 {
      RepeatedElements(block, n - 1);
    }
  }

  /** The displacement loop dispatches the displacement kernel once per pass. */
  lemma {:induction false} DisplacementDispatches(kernels: KernelIds, heightDecodePass: int, n: nat)
    requires kernels.displacement >= 0
    ensures Dispatched(Repeated(DisplacementPass(kernels, heightDecodePass), n)) == KernelRun(Displacement, n)
  {
    if n > 0 {
      DisplacementDispatches(kernels, heightDecodePass, n - 1);
      DispatchedAppend(Repeated(DisplacementPass(kernels, heightDecodePass), n - 1), DisplacementPass(kernels, heightDecodePass));
      DispatchedAppend([HeightDecode(heightDecodePass)], DispatchOf(Displacement, kernels.displacement));
      DispatchOfDispatches(Displacement, kernels.displacement);
    }
  }

  /** A repeated block that dispatches nothing dispatches nothing. */
  lemma {:induction false} RepeatedDispatchesNothing(block: seq<Command>, n: nat)
    requires Dispatched(block) == []
    ensures Dispatched(Repeated(block, n)) == []
  {
    if n > 0 {
      RepeatedDispatchesNothing(block, n - 1);
      DispatchedAppend(Repeated(block, n - 1), block);
    }
  }

  /** A dispatch records its kernel; a real kernel index always dispatches. */
  lemma DispatchOfDispatches(k: Kernel, index: int)
    ensures Dispatched(DispatchOf(k, index)) == if index >= 0 then [k] else []
  {
  }

  /** The velocity kernels dispatch in the order decode, clear, update. */
  lemma VelocityDispatches(kernels: KernelIds)
    requires Dispatchable(kernels, true)
    ensures Dispatched(VelocityCommands(kernels)) == [VelocityDecode, VelocityClear, VelocityUpdate]
  {
    DispatchOfDispatches(VelocityDecode, kernels.velocityDecode);
    DispatchOfDispatches(VelocityClear, kernels.velocityClear);
    DispatchOfDispatches(VelocityUpdate, kernels.velocityUpdate);
    DispatchedAppend(DispatchOf(VelocityDecode, kernels.velocityDecode), DispatchOf(VelocityClear, kernels.velocityClear));
    DispatchedAppend(DispatchOf(VelocityDecode, kernels.velocityDecode) + DispatchOf(VelocityClear, kernels.velocityClear),
                     DispatchOf(VelocityUpdate, kernels.velocityUpdate));
  }

  /** The end of the compute part dispatches the spread kernel when it is used, then
      exactly one of the two minimum kernels. */
  lemma TailDispatches(kernels: KernelIds, heightDecodePass: int, useHeightSpreadPass: bool, falloffMinimum: bool)
    requires Dispatchable(kernels, false)
    ensures Dispatched(ComputeTailCommands(kernels, heightDecodePass, useHeightSpreadPass, falloffMinimum))
         == (if useHeightSpreadPass then [HeightAboveOneSpread] else [])
            + [if falloffMinimum then MinimumWithFalloffMask else Minimum]
  {
    var spread: seq<Command> :=
      if useHeightSpreadPass then [HeightDecode(heightDecodePass)] + DispatchOf(HeightAboveOneSpread, kernels.heightAboveOneSpread)
      else [];
    var minimum := MinimumCommands(kernels, falloffMinimum);
    DispatchedAppend(spread + minimum, [HeightDecode(heightDecodePass)]);
    DispatchedAppend(spread, minimum);
    if useHeightSpreadPass {
      DispatchedAppend([HeightDecode(heightDecodePass)], DispatchOf(HeightAboveOneSpread, kernels.heightAboveOneSpread));
      DispatchOfDispatches(HeightAboveOneSpread, kernels.heightAboveOneSpread);
    }
    DispatchOfDispatches(MinimumWithFalloffMask, kernels.minimumWithFalloffMask);
    DispatchOfDispatches(Minimum, kernels.minimum);
  }

  /** The dispatch order of the compute part of a frame, once the kernel ids are real
      ones: the height encoding while it is pending, the velocity decode, clear and
      update when velocity is simulated, one displacement per pass, the spread kernel
      when it is used, and exactly one of the two minimum kernels. */
  lemma ComputeDispatchOrder(kernels: KernelIds, heightDecodePass: int, jitter: Vec2, performedHeightEncoding: bool,
                             simulateVelocity: bool, numExtraDisplacementPasses: int,
                             useHeightSpreadPass: bool, falloffMinimum: bool)
    requires Dispatchable(kernels, simulateVelocity)
    ensures Dispatched(ComputeCommands(kernels, heightDecodePass, jitter, performedHeightEncoding, simulateVelocity,
                                       numExtraDisplacementPasses, useHeightSpreadPass, falloffMinimum))
         == (if performedHeightEncoding then [] else [HeightEncode])
            + (if simulateVelocity then [VelocityDecode, VelocityClear, VelocityUpdate] else [])
            + KernelRun(Displacement, Iterations(WrapInt32(1 + numExtraDisplacementPasses)))
            + ((if useHeightSpreadPass then [HeightAboveOneSpread] else [])
               + [if falloffMinimum then MinimumWithFalloffMask else Minimum])
  {
    var a: seq<Command> := [JitterSet(jitter)];
    var b: seq<Command> := if performedHeightEncoding then [] else DispatchOf(HeightEncode, kernels.heightEncode);
    var c: seq<Command> := if simulateVelocity then VelocityCommands(kernels) else [];
    var n := Iterations(WrapInt32(1 + numExtraDisplacementPasses));
    var d := Repeated(DisplacementPass(kernels, heightDecodePass), n);
    var e := ComputeTailCommands(kernels, heightDecodePass, useHeightSpreadPass, falloffMinimum);
    assert ComputeCommands(kernels, heightDecodePass, jitter, performedHeightEncoding, simulateVelocity,
                           numExtraDisplacementPasses, useHeightSpreadPass, falloffMinimum) == a + b + c + d + e;
    var encode: seq<Kernel> := if performedHeightEncoding then [] else [HeightEncode];
    var velocity: seq<Kernel> := if simulateVelocity then [VelocityDecode, VelocityClear, VelocityUpdate] else [];
    var tail: seq<Kernel> := (if useHeightSpreadPass then [HeightAboveOneSpread] else [])
                             + [if falloffMinimum then MinimumWithFalloffMask else Minimum];
    assert Dispatched(b) == encode by {
      DispatchOfDispatches(HeightEncode, kernels.heightEncode);
    }
    assert Dispatched(c) == velocity by {
      if simulateVelocity {
        VelocityDispatches(kernels);
      }
    }
    DisplacementDispatches(kernels, heightDecodePass, n);
    TailDispatches(kernels, heightDecodePass, useHeightSpreadPass, falloffMinimum);
    DispatchedOfParts(a, b, c, d, e, encode, velocity, KernelRun(Displacement, n), tail);
  }

  lemma DispatchedOfParts(a: seq<Command>, b: seq<Command>, c: seq<Command>, d: seq<Command>, e: seq<Command>,
                          kb: seq<Kernel>, kc: seq<Kernel>, kd: seq<Kernel>, ke: seq<Kernel>)
    requires Dispatched(a) == [] && Dispatched(b) == kb && Dispatched(c) == kc && Dispatched(d) == kd && Dispatched(e) == ke
    ensures Dispatched(a + b + c + d + e) == kb + kc + kd + ke
  {
    DispatchedAppend(a, b);
    DispatchedAppend(a + b, c);
    DispatchedAppend(a + b + c, d);
    DispatchedAppend(a + b + c + d, e);
  }

  /** Whether a command sequence holds no dispatch, no ground bake and no swept-area
      copy. */
  predicate GraphicsOnly(cmds: seq<Command>)
  {
    forall c :: c in cmds ==> !c.Dispatch? && !c.GroundBake? && !c.SweepAreaCopy?
  }

  lemma {:induction false} GraphicsOnlyDispatchesNothing(cmds: seq<Command>)
    requires GraphicsOnly(cmds)
    ensures Dispatched(cmds) == []
  {
    if cmds != [] {
      assert cmds[0] in cmds;
      assert forall c :: c in cmds[1..] ==> c in cmds;
      GraphicsOnlyDispatchesNothing(cmds[1..]);
    }
  }

  lemma RepeatedGraphicsOnly(block: seq<Command>, n: nat)
    requires GraphicsOnly(block)
    ensures GraphicsOnly(Repeated(block, n))
  {
    RepeatedElements(block, n);
  }

  lemma {:induction false} DownsamplesAreGraphicsOnly(size: Vec2Int, times: nat, n: nat)
    ensures GraphicsOnly(DownsampleCommands(size, times, n))
  {
    if n > 0 {
      DownsamplesAreGraphicsOnly(size, times, n - 1);
    }
  }

  lemma {:induction false} BlursAreGraphicsOnly(schedule: seq<real>)
    ensures GraphicsOnly(LaplacianBlurs(schedule))
  {
    if schedule != [] {
      BlursAreGraphicsOnly(schedule[1..]);
    }
  }

  /** The edge-falloff build records no dispatch and no ground bake. */
  lemma EdgeFalloffIsGraphicsOnly(size: Vec2Int, times: nat, laplacianBlurRadius: real, blurRadius: real)
    ensures GraphicsOnly(EdgeFalloffCommands(size, times, laplacianBlurRadius, blurRadius))
  {
    DownsamplesAreGraphicsOnly(size, times, TempTargetCount(times));
    BlursAreGraphicsOnly(BlurSchedule(0.0, laplacianBlurRadius / 4.0));
    RepeatedGraphicsOnly([ErosionPair], Iterations(Ceil(blurRadius)));
    RepeatedGraphicsOnly([ErosionPair], Iterations(1));
  }

  lemma MotionIsGraphicsOnly(blurRadius: real, horizontalPass: int, verticalPass: int)
    ensures GraphicsOnly(MotionCommands(blurRadius, horizontalPass, verticalPass))
  {
    RepeatedGraphicsOnly([DilationPair(horizontalPass, verticalPass)], Iterations(Ceil(blurRadius)));
  }

  lemma RendersAreGraphicsOnly(captureMotionVectors: bool, blurRadius: real, passes: PassIds)
    ensures GraphicsOnly(RenderCommands(captureMotionVectors, blurRadius, passes))
  {
    MotionIsGraphicsOnly(blurRadius, passes.horizontalDilationBelowEpsilon, passes.verticalDilationBelowEpsilon);
  }

  lemma FrameEndIsGraphicsOnly(f: FrameState)
    ensures GraphicsOnly(FrameEndCommands(f))
  {
  }

  /** The pending ground bake is one GroundBake followed by graphics-only commands. */
  lemma GroundBakeDispatchesNothing(f: FrameState)
    ensures Dispatched(GroundBakeCommands(f)) == []
    ensures multiset(GroundBakeCommands(f))[GroundBake] == if f.performedGroundBake then 0 else 1
  {
    if !f.performedGroundBake {
      var e := if f.captured.falloffAtEdges
               then EdgeFalloffCommands(f.textureSize, f.settings.edgeFalloffDownsampleTimes,
                                        f.settings.falloffLaplacianBlurRadius, f.settings.blurRadius)
               else [];
      EdgeFalloffIsGraphicsOnly(f.textureSize, f.settings.edgeFalloffDownsampleTimes,
                                f.settings.falloffLaplacianBlurRadius, f.settings.blurRadius);
      assert GroundBakeCommands(f) == [GroundBake] + e;
      GraphicsOnlyDispatchesNothing(e);
      DispatchedAppend([GroundBake], e);
      assert GroundBake !in e;
    }
  }

  /** Before the compute part a frame dispatches only the swept-area kernel. */
  lemma FrameStartDispatches(f: FrameState)
    ensures Dispatched(FrameStartCommands(f))
         == if ApproximateSweptArea(f.captured.computeShader, f.settings.approximateSweptArea) && f.kernels.sweepArea >= 0
            then [SweepArea] else []
  {
    var g := GroundBakeCommands(f);
    var r := RenderCommands(CaptureMotionVectors(f.captured.computeShader), f.settings.blurRadius, f.passes);
    var s := SweptAreaCommands(f.captured.computeShader, f.settings.approximateSweptArea, f.kernels);
    GroundBakeDispatchesNothing(f);
    RendersAreGraphicsOnly(CaptureMotionVectors(f.captured.computeShader), f.settings.blurRadius, f.passes);
    GraphicsOnlyDispatchesNothing(r);
    DispatchedAppend(g, r);
    DispatchedAppend(g + r, s);
    DispatchedAppend([SweepAreaCopy], DispatchOf(SweepArea, f.kernels.sweepArea));
    DispatchOfDispatches(SweepArea, f.kernels.sweepArea);
  }

  /** The dispatch order of a whole frame with a compute shader: the swept-area kernel
      when the swept area is approximated, then the compute part's kernels. The ground
      bake, the renders and the outputs dispatch nothing. */
  lemma FrameDispatchOrder(f: FrameState)
    requires f.captured.computeShader.Some? && Dispatchable(f.kernels, f.captured.simulateVelocity)
    ensures Dispatched(FrameCommands(f))
         == (if f.settings.approximateSweptArea then [SweepArea] else [])
            + ((if f.performedHeightEncoding then [] else [HeightEncode])
               + (if f.captured.simulateVelocity then [VelocityDecode, VelocityClear, VelocityUpdate] else [])
               + KernelRun(Displacement, Iterations(WrapInt32(1 + f.settings.numExtraDisplacementPasses)))
               + ((if f.settings.useHeightSpreadPass then [HeightAboveOneSpread] else [])
                  + [if f.captured.falloffAtEdges && f.hasEdgeFalloffTexture then MinimumWithFalloffMask else Minimum]))
  {
    var cs := f.captured.computeShader;
    var sweep: seq<Kernel> := if f.settings.approximateSweptArea then [SweepArea] else [];
    var compute: seq<Kernel> :=
      (if f.performedHeightEncoding then [] else [HeightEncode])
      + (if f.captured.simulateVelocity then [VelocityDecode, VelocityClear, VelocityUpdate] else [])
      + KernelRun(Displacement, Iterations(WrapInt32(1 + f.settings.numExtraDisplacementPasses)))
      + ((if f.settings.useHeightSpreadPass then [HeightAboveOneSpread] else [])
         + [if f.captured.falloffAtEdges && f.hasEdgeFalloffTexture then MinimumWithFalloffMask else Minimum]);
    ComputeDispatchOrder(f.kernels, f.passes.heightDecode, JitterAt(f.jitterIndex), f.performedHeightEncoding,
                         SimulateVelocity(f.captured.simulateVelocity, cs), f.settings.numExtraDisplacementPasses,
                         f.settings.useHeightSpreadPass, f.captured.falloffAtEdges && f.hasEdgeFalloffTexture);
    assert Dispatched(FrameComputeCommands(f)) == compute;
    FrameStartDispatches(f);
    FrameEndIsGraphicsOnly(f);
    GraphicsOnlyDispatchesNothing(FrameEndCommands(f));
    DispatchedOfFrame(FrameStartCommands(f), FrameComputeCommands(f), FrameEndCommands(f), sweep, compute);
  }

  lemma DispatchedOfFrame(start: seq<Command>, compute: seq<Command>, end: seq<Command>, ks: seq<Kernel>, kc: seq<Kernel>)
    requires Dispatched(start) == ks && Dispatched(compute) == kc && Dispatched(end) == []
    ensures Dispatched(start + compute + end) == ks + kc
  {
    DispatchedAppend(start, compute);
    DispatchedAppend(start + compute, end);
  }

  /** Without a compute shader a frame dispatches nothing, records no compute part and
      updates the mask height with its own pass; the layer mask then reads the depth
      rather than the final mask height. */
  lemma FrameWithoutComputeShader(f: FrameState)
    requires f.captured.computeShader.None?
    ensures FrameComputeCommands(f) == []
    ensures Dispatched(FrameCommands(f)) == []
    ensures MaskHeightUpdate(f.passes.maskHeightUpdate) in FrameCommands(f)
    ensures LayerMaskUpdate(LayerMaskPass(f.passes, f.templateLayerCount, false)) in FrameCommands(f)
    ensures NextFrameState(f).jitterIndex == f.jitterIndex
    ensures NextFrameState(f).performedHeightEncoding == f.performedHeightEncoding
  {
    FrameStartDispatches(f);
    FrameEndIsGraphicsOnly(f);
    GraphicsOnlyDispatchesNothing(FrameEndCommands(f));
    DispatchedAppend(FrameStartCommands(f), FrameComputeCommands(f));
    DispatchedAppend(FrameStartCommands(f) + FrameComputeCommands(f), FrameEndCommands(f));
    assert MaskHeightUpdate(f.passes.maskHeightUpdate) in FrameEndCommands(f);
    assert LayerMaskUpdate(LayerMaskPass(f.passes, f.templateLayerCount, false)) in FrameEndCommands(f);
  }

  /** Exactly one mechanism updates the mask height each frame: with a compute shader
      the compute part runs and the outputs hold no mask-height pass; without one there
      is no compute part and the outputs hold the mask-height pass. */
  lemma MaskHeightUpdatedOnce(f: FrameState)
    ensures UpdateMaskHeightFromComputeShader(f.captured.computeShader) ==>
              && FrameComputeCommands(f) != []
              && forall c :: c in FrameEndCommands(f) ==> !c.MaskHeightUpdate?
    ensures !UpdateMaskHeightFromComputeShader(f.captured.computeShader) ==>
              && FrameComputeCommands(f) == []
              && MaskHeightUpdate(f.passes.maskHeightUpdate) in FrameEndCommands(f)
  {
    if UpdateMaskHeightFromComputeShader(f.captured.computeShader) {
      assert FrameComputeCommands(f)[0] == JitterSet(JitterAt(f.jitterIndex));
    }
  }

  /** The frame's one layer-mask pass reads the final mask height exactly when the
      frame has a compute part to produce it. */
  lemma LayerMaskReadsFinalHeight(f: FrameState)
    ensures LayerMaskUpdate(LayerMaskPass(f.passes, f.templateLayerCount, FrameComputeCommands(f) != []))
            in FrameEndCommands(f)
    ensures forall c :: c in FrameEndCommands(f) && c.LayerMaskUpdate? ==>
              c.pass == LayerMaskPass(f.passes, f.templateLayerCount, FrameComputeCommands(f) != [])
  {
    MaskHeightUpdatedOnce(f);
  }

  /** Motion vectors are rendered exactly when there is a compute shader, so a frame
      with a compute part has rendered them before it. */
  lemma MotionVectorsBeforeCompute(f: FrameState)
    ensures var cs := f.captured.computeShader;
            MotionVectorRender in RenderCommands(CaptureMotionVectors(cs), f.settings.blurRadius, f.passes)
            <==> cs.Some?
    ensures FrameComputeCommands(f) != [] ==> MotionVectorRender in FrameStartCommands(f)
  {
    var cs := f.captured.computeShader;
    var r := RenderCommands(CaptureMotionVectors(cs), f.settings.blurRadius, f.passes);
    if cs.Some? {
      assert r[1] == MotionVectorRender;
      assert FrameStartCommands(f) == GroundBakeCommands(f) + r
                                      + SweptAreaCommands(cs, f.settings.approximateSweptArea, f.kernels);
    } else {
      assert r == [HeightRender, BlurPair(f.settings.blurRadius / 4.0)];
    }
  }

  /** The velocity kernels are dispatched exactly when velocity is simulated, which
      needs both the setting and a compute shader. */
  lemma VelocitySimulatedIff(f: FrameState)
    requires Dispatchable(f.kernels, f.captured.simulateVelocity)
    ensures forall k :: k in {VelocityDecode, VelocityClear, VelocityUpdate} ==>
              (k in Dispatched(FrameCommands(f))
               <==> SimulateVelocity(f.captured.simulateVelocity, f.captured.computeShader))
  {
    if f.captured.computeShader.None? {
      FrameWithoutComputeShader(f);
    } else {
      FrameDispatchOrder(f);
      KernelRunElements(Displacement, Iterations(WrapInt32(1 + f.settings.numExtraDisplacementPasses)));
    }
  }

  /** The swept-area copy is recorded exactly when the swept area is approximated, and
      then the motion vectors it reads were rendered earlier in the frame. */
  lemma SweptAreaNeedsMotionVectors(f: FrameState)
    ensures SweepAreaCopy in FrameStartCommands(f)
            <==> ApproximateSweptArea(f.captured.computeShader, f.settings.approximateSweptArea)
    ensures SweepAreaCopy in FrameStartCommands(f) ==> MotionVectorRender in FrameStartCommands(f)
  {
    var cs := f.captured.computeShader;
    var g := GroundBakeCommands(f);
    var r := RenderCommands(CaptureMotionVectors(cs), f.settings.blurRadius, f.passes);
    var w := SweptAreaCommands(cs, f.settings.approximateSweptArea, f.kernels);
    if !f.performedGroundBake && f.captured.falloffAtEdges {
      EdgeFalloffIsGraphicsOnly(f.textureSize, f.settings.edgeFalloffDownsampleTimes,
                                f.settings.falloffLaplacianBlurRadius, f.settings.blurRadius);
    }
    assert SweepAreaCopy !in g;
    RendersAreGraphicsOnly(CaptureMotionVectors(cs), f.settings.blurRadius, f.passes);
    assert SweepAreaCopy !in r;
    assert FrameStartCommands(f) == g + r + w;
    MotionVectorsBeforeCompute(f);
  }

  lemma ComputeRecordsNoGroundBake(kernels: KernelIds, heightDecodePass: int, jitter: Vec2, performedHeightEncoding: bool,
                                   simulateVelocity: bool, numExtraDisplacementPasses: int,
                                   useHeightSpreadPass: bool, falloffMinimum: bool)
    ensures GroundBake !in ComputeCommands(kernels, heightDecodePass, jitter, performedHeightEncoding, simulateVelocity,
                                           numExtraDisplacementPasses, useHeightSpreadPass, falloffMinimum)
  {
    RepeatedElements(DisplacementPass(kernels, heightDecodePass), Iterations(WrapInt32(1 + numExtraDisplacementPasses)));
  }

  lemma FrameComputeRecordsNoGroundBake(f: FrameState)
    ensures GroundBake !in FrameComputeCommands(f)
  {
    var cs := f.captured.computeShader;
    if cs.Some? {
      ComputeRecordsNoGroundBake(f.kernels, f.passes.heightDecode, JitterAt(f.jitterIndex), f.performedHeightEncoding,
                                 SimulateVelocity(f.captured.simulateVelocity, cs), f.settings.numExtraDisplacementPasses,
                                 f.settings.useHeightSpreadPass, f.captured.falloffAtEdges && f.hasEdgeFalloffTexture);
    }
  }

  /** The ground bake is recorded by a frame exactly when it is still pending, once. */
  lemma FrameGroundBakes(f: FrameState)
    ensures multiset(FrameCommands(f))[GroundBake] == if f.performedGroundBake then 0 else 1
  {
    var cs := f.captured.computeShader;
    var r := RenderCommands(CaptureMotionVectors(cs), f.settings.blurRadius, f.passes);
    GroundBakeDispatchesNothing(f);
    RendersAreGraphicsOnly(CaptureMotionVectors(cs), f.settings.blurRadius, f.passes);
    assert GroundBake !in r;
    FrameComputeRecordsNoGroundBake(f);
    FrameEndIsGraphicsOnly(f);
    var w := SweptAreaCommands(cs, f.settings.approximateSweptArea, f.kernels);
    assert FrameCommands(f) == GroundBakeCommands(f) + r + w + FrameComputeCommands(f) + FrameEndCommands(f);
    CountOfParts(GroundBakeCommands(f), r, w, FrameComputeCommands(f), FrameEndCommands(f), GroundBake);
  }

  /** The count of a command that is only in the first of five parts. */
  lemma CountOfParts(g: seq<Command>, r: seq<Command>, w: seq<Command>, c: seq<Command>, e: seq<Command>, x: Command)
    requires x !in r && x !in w && x !in c && x !in e
    ensures multiset(g + r + w + c + e)[x] == multiset(g)[x]
  {
    assert multiset(g + r + w + c + e) == multiset(g) + multiset(r) + multiset(w) + multiset(c) + multiset(e);
  }

  /** The state the pass is in after `n` guarded Executes in a row from `f`. */
  function After(f: FrameState, n: nat): FrameState
    decreases n
  {
    if n == 0 then f else After(NextFrameState(f), n - 1)
  }

  /** Executes change only the two once-per-Setup flags and the jitter index: the ground
      bake is done after the first, and so is the height encoding when a compute shader
      with a real encoding kernel was captured. */
  lemma {:induction false} AfterFrames(f: FrameState, n: nat)
    ensures After(f, n).(performedGroundBake := f.performedGroundBake,
                         performedHeightEncoding := f.performedHeightEncoding,
                         jitterIndex := f.jitterIndex) == f
    ensures After(f, n).performedGroundBake == (f.performedGroundBake || n > 0)
    ensures After(f, n).performedHeightEncoding
         == (f.performedHeightEncoding || (n > 0 && f.captured.computeShader.Some? && f.kernels.heightEncode >= 0))
    decreases n
  {
    if n > 0 {
      AfterFrames(NextFrameState(f), n - 1);
    }
  }

  /** Over the guarded Executes after Setup, the ground bake (with the edge-falloff
      build) is recorded by the first one only, once. */
  lemma GroundBakeOnlyFirst(f: FrameState, n: nat)
    ensures multiset(FrameCommands(After(f, n)))[GroundBake] == if n == 0 && !f.performedGroundBake then 1 else 0
  {
    AfterFrames(f, n);
    FrameGroundBakes(After(f, n));
  }

  /** With a compute shader whose kernels are real, a frame dispatches the height
      encoding once when it is still pending and not at all otherwise. */
  lemma FrameEncodes(f: FrameState)
    requires f.captured.computeShader.Some? && Dispatchable(f.kernels, f.captured.simulateVelocity)
    ensures multiset(Dispatched(FrameCommands(f)))[HeightEncode] == if f.performedHeightEncoding then 0 else 1
  {
    var n := Iterations(WrapInt32(1 + f.settings.numExtraDisplacementPasses));
    FrameDispatchOrder(f);
    KernelRunElements(Displacement, n);
    EncodeCount(Dispatched(FrameCommands(f)), f.settings.approximateSweptArea, f.performedHeightEncoding,
                f.captured.simulateVelocity, KernelRun(Displacement, n), f.settings.useHeightSpreadPass,
                f.captured.falloffAtEdges && f.hasEdgeFalloffTexture);
  }

  lemma EncodeCount(dispatched: seq<Kernel>, sweep: bool, performedHeightEncoding: bool, simulateVelocity: bool,
                    displacements: seq<Kernel>, useHeightSpreadPass: bool, falloffMinimum: bool)
    requires HeightEncode !in displacements
    requires dispatched == (if sweep then [SweepArea] else [])
                     + ((if performedHeightEncoding then [] else [HeightEncode])
                        + (if simulateVelocity then [VelocityDecode, VelocityClear, VelocityUpdate] else [])
                        + displacements
                        + ((if useHeightSpreadPass then [HeightAboveOneSpread] else [])
                           + [if falloffMinimum then MinimumWithFalloffMask else Minimum]))
    ensures multiset(dispatched)[HeightEncode] == if performedHeightEncoding then 0 else 1
  {
  }

  /** With a compute shader whose kernels are real, the height encoding is dispatched by
      the first guarded Execute after Setup, once, and by no later one. */
  lemma HeightEncodedOnlyFirst(f: FrameState, n: nat)
    requires f.captured.computeShader.Some? && Dispatchable(f.kernels, f.captured.simulateVelocity)
    ensures multiset(Dispatched(FrameCommands(After(f, n))))[HeightEncode]
         == if n == 0 && !f.performedHeightEncoding then 1 else 0
  {
    AfterFrames(f, n);
    FrameEncodes(After(f, n));
  }

  lemma {:induction false} KernelRunElements(k: Kernel, n: nat)
    ensures forall j :: j in KernelRun(k, n) ==> j == k
    ensures |KernelRun(k, n)| == n
  {
    if n > 0 {
      KernelRunElements(k, n - 1);
    }
  }
}
