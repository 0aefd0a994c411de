// The Vulkan test base class built on vulkan.hpp and GLFW: its queue
// family search, device setup, submission, command-buffer recycling,
// swapchain choices and the graphics pipeline builder.
module VkCommon {
  import opened Common
  import opened VkHelpers
  import opened VkCommonHeader
  import opened VkTest

  // ---- The queue family ----------------------------------------------------

  /** The loop's test, one bit at a time, is the graphics-and-compute test. */
  lemma SeparateBitsTest(flags: bv32)
    ensures (flags & QUEUE_COMPUTE_BIT != 0 && flags & QUEUE_GRAPHICS_BIT != 0) <==> GraphicsAndCompute(flags)
  {
  }

  /**
   * The search in `Init`: the counter stops at the first family with both
   * compute and graphics, or runs off the end of the list.
   */
  method FindQueueFamilyIndex(flags: seq<bv32>) returns (index: u32)
    requires |flags| <= U32Max
    ensures FirstQueueFamily(flags).Some? ==> index == FirstQueueFamily(flags).value
    ensures FirstQueueFamily(flags).None? ==> index == |flags|
  {
    index := 0;
    while index < |flags|
      invariant 0 <= index <= |flags|
      invariant forall j :: 0 <= j < index ==> !GraphicsAndCompute(flags[j])
    {
      SeparateBitsTest(flags[index]);
      if flags[index] & QUEUE_COMPUTE_BIT != 0 && flags[index] & QUEUE_GRAPHICS_BIT != 0 {
        break;
      }
      index := index + 1;
    }
  }

  /** The device queue `Init` asks for: one queue of family 0, whichever family the search found. */
  function DeviceQueue(): (q: DeviceQueueCreateInfo)
    ensures q.queueFamilyIndex == 0 && q.queueCount == 1
  {
    DeviceQueueCreateInfo(0, 1)
  }

  /**
   * The family found is only passed to the presentation query: on a
   * device whose first family is compute-only, the search finds family 1
   * but the queue still comes from family 0, which has no graphics.
   */
  lemma DeviceQueueIgnoresSearch()
    ensures var flags := [QUEUE_COMPUTE_BIT, QUEUE_GRAPHICS_BIT | QUEUE_COMPUTE_BIT];
      FirstQueueFamily(flags) == Some(1) && DeviceQueue().queueFamilyIndex == 0 &&
      !GraphicsAndCompute(flags[DeviceQueue().queueFamilyIndex])
  {
    var flags := [QUEUE_COMPUTE_BIT, QUEUE_GRAPHICS_BIT | QUEUE_COMPUTE_BIT];
    assert GraphicsAndCompute(flags[1]);
  }

  // ---- Init ----------------------------------------------------------------

  /** What `Init` learns from GLFW and the driver. */
  datatype CommonInitEnv = CommonInitEnv(
    volkOk: bool, glslcOk: bool, glfwOk: bool, vulkanSupported: bool, glfwExtensions: Option<seq<string>>,
    supportedLayers: seq<string>, instanceResult: VkResult, physicalDevicesResult: VkResult,
    physicalDevices: nat, queueFlags: seq<bv32>, windowOk: bool, surfaceResult: VkResult,
    requestedFeatures: seq<bool>, supportedFeatures: seq<bool>, deviceResult: VkResult)

  datatype CommonInitFailure =
    | VulkanMissing | GlslcMissing | GlfwFailed | VulkanUnsupported | NoGlfwExtensions | InstanceFailed
    | NoDevices | WindowFailed | SurfaceFailed | UnsupportedFeature | DeviceFailed

  /** The instance, device and queue choices `Init` makes. */
  datatype CommonSetup = CommonSetup(layers: seq<string>, instanceExts: seq<string>, presentFamily: nat,
                                     device: DeviceCreateInfo)

  predicate CommonInitSucceeds(env: CommonInitEnv)
  {
    env.volkOk && env.glslcOk && env.glfwOk && env.vulkanSupported && env.glfwExtensions.Some? &&
    env.instanceResult == Success && env.physicalDevicesResult == Success && env.physicalDevices > 0 &&
    env.windowOk && env.surfaceResult == Success && env.deviceResult == Success
  }

  /**
   * `Init` as written. The feature check compares the requested features
   * with themselves, so it never refuses, and only the device creation's
   * result decides the features' fate. The validation layer is searched for whether or not
   * debugging was asked for, the debug report extension is always added to
   * GLFW's, and no extension is checked against the supported lists.
   */
  method Init(env: CommonInitEnv) returns (r: Result<CommonSetup, CommonInitFailure>)
    requires |env.queueFlags| <= U32Max
    ensures r.Ok? <==> CommonInitSucceeds(env)
    ensures r != Error(CommonInitFailure.UnsupportedFeature)
    ensures r.Ok? ==> r.value.layers == ValidationLayers(true, env.supportedLayers)
    ensures r.Ok? ==> r.value.instanceExts == env.glfwExtensions.value + [DebugReportExtension]
    ensures r.Ok? ==> (r.value.presentFamily ==
      if FirstQueueFamily(env.queueFlags).Some? then FirstQueueFamily(env.queueFlags).value else |env.queueFlags|)
    ensures r.Ok? ==> (r.value.device ==
      MakeDeviceCreateInfo([DeviceQueue()], r.value.layers, [SwapchainExtension], Some(env.requestedFeatures)))
  {
    if !env.volkOk {
      return Error(CommonInitFailure.VulkanMissing);
    }
    if !env.glslcOk {
      return Error(CommonInitFailure.GlslcMissing);
    }
    if !env.glfwOk {
      return Error(GlfwFailed);
    }
    if !env.vulkanSupported {
      return Error(VulkanUnsupported);
    }
    if env.glfwExtensions.None? {
      return Error(NoGlfwExtensions);
    }
    var instExts := env.glfwExtensions.value + [DebugReportExtension];
    var layers := SelectLayers(true, env.supportedLayers);
    if env.instanceResult != Success {
      return Error(InstanceFailed);
    }
    if env.physicalDevicesResult != Success || env.physicalDevices == 0 {
      return Error(CommonInitFailure.NoDevices);
    }
    var presentFamily := FindQueueFamilyIndex(env.queueFlags);
    if !env.windowOk {
      return Error(WindowFailed);
    }
    if env.surfaceResult != Success {
      return Error(CommonInitFailure.SurfaceFailed);
    }
    var devExts := [SwapchainExtension];
    var featuresOk := FeatureCheckAsWritten(env.requestedFeatures);
    if !featuresOk {
      return Error(CommonInitFailure.UnsupportedFeature);
    }
    var device := MakeDeviceCreateInfo([DeviceQueue()], layers, devExts, Some(env.requestedFeatures));
    if env.deviceResult != Success {
      return Error(DeviceFailed);
    }
    return Ok(CommonSetup(layers, instExts, presentFamily, device));
  }

  /** Whether `Init` succeeds does not depend on the features the device supports. */
  lemma CommonInitIgnoresSupportedFeatures(env: CommonInitEnv, supported: seq<bool>)
    ensures CommonInitSucceeds(env) <==> CommonInitSucceeds(env.(supportedFeatures := supported))
  {
  }

  // ---- Submission ----------------------------------------------------------

  /** As in the C API test, except that the wait stage mask is set on every submission. */
  function CommonSubmitSync(index: int, totalSubmits: int, n: nat): (info: SubmitInfo)
    ensures info.waitStageMaskSet && info.commandBufferCount == n
    ensures info.waitSemaphoreCount == 1 <==> index == 0
    ensures info.signalSemaphoreCount == 1 <==> index == totalSubmits - 1
    ensures info.waitSemaphoreCount <= 1 && info.signalSemaphoreCount <= 1
  {
    SubmitInfo(if index == 0 then 1 else 0, true, if index == totalSubmits - 1 then 1 else 0, n)
  }

  /** The two test bases submit with the same semaphores; only the stage mask differs. */
  lemma SubmitSyncDiffersOnlyInMask(index: int, totalSubmits: int, n: nat)
    ensures CommonSubmitSync(index, totalSubmits, n) == SubmitSync(index, totalSubmits, n).(waitStageMaskSet := true)
    ensures index != 0 ==> CommonSubmitSync(index, totalSubmits, n) != SubmitSync(index, totalSubmits, n)
  {
  }

  // ---- Swapchain choices ---------------------------------------------------

  /**
   * The choices of `createSwap`. The result tested after the queries is
   * the presentation-support query's, which overwrote the format query's.
   * The extent is the window size, clamped to the surface's range; the
   * swapchain, its images and the view of each image (one result per
   * image in `viewResults`) can still fail.
   */
  method CreateSwap(supportResult: VkResult, formats: seq<SurfaceFormat>, modes: seq<nat>,
                    windowWidth: u32, windowHeight: u32, caps: SurfaceCapabilities,
                    swapchainResult: VkResult, imagesResult: VkResult, viewResults: seq<VkResult>)
    returns (choice: Option<SwapChoice>)
    ensures choice.Some? <==> supportResult == Success && formats != [] && swapchainResult == Success &&
                              imagesResult == Success && forall v :: v in viewResults ==> v == Success
    ensures choice.Some? ==> choice.value.format == ChosenSurfaceFormat(formats)
    ensures choice.Some? ==> choice.value.mode == ChoosePresentMode(modes)
    ensures choice.Some? ==> choice.value.width == ClampExtent(windowWidth, caps.minWidth, caps.maxWidth)
    ensures choice.Some? ==> choice.value.height == ClampExtent(windowHeight, caps.minHeight, caps.maxHeight)
  {
    if supportResult != Success || formats == [] {
      return None;
    }
    var format := ChooseSurfaceFormat(formats);
    var mode := ChoosePresentMode(modes);
    var width := Min(windowWidth, caps.maxWidth);
    width := Max(width, caps.minWidth);
    var height := Min(windowHeight, caps.maxHeight);
    height := Max(height, caps.minHeight);
    if swapchainResult != Success || imagesResult != Success {
      return None;
    }
    for i := 0 to |viewResults|
      invariant forall j :: 0 <= j < i ==> viewResults[j] == Success
    {
      if viewResults[i] != Success {
        assert viewResults[i] in viewResults;
        return None;
      }
    }
    return Some(SwapChoice(format, mode, width, height));
  }

  // ---- The test object's bookkeeping ---------------------------------------

  /** The command buffer and fence bookkeeping of the vulkan.hpp test base class. */
  class VulkanGraphicsTest {
    var fences: set<Fence>
    var freeCommandBuffers: seq<CommandBuffer>
    var pendingCommandBuffers: seq<(CommandBuffer, Fence)>

    /** Every pending command buffer waits on a fence that is still alive. */
    ghost predicate Valid()
      reads this
    {
      forall i :: 0 <= i < |pendingCommandBuffers| ==> pendingCommandBuffers[i].1 in fences
    }

    constructor()
      ensures Valid()
      ensures fences == {} && freeCommandBuffers == [] && pendingCommandBuffers == []
    {
      fences, freeCommandBuffers, pendingCommandBuffers := {}, [], [];
    }

    /** `Submit(index, totalSubmits, cmds)`; `fence` is the fence the driver creates for it. */
    method Submit(index: int, totalSubmits: int, cmds: seq<CommandBuffer>, fence: Fence) returns (info: SubmitInfo)
      requires Valid()
      modifies this`fences, this`pendingCommandBuffers
      ensures Valid()
      ensures info == CommonSubmitSync(index, totalSubmits, |cmds|)
      ensures fences == old(fences) + {fence}
      ensures pendingCommandBuffers == old(pendingCommandBuffers) + Tagged(cmds, fence)
    {
      info := SubmitInfo(0, true, 0, |cmds|);
      if index == 0 {
        info := info.(waitSemaphoreCount := 1);
      }
      if index == totalSubmits - 1 {
        info := info.(signalSemaphoreCount := 1);
      }
      fences := fences + {fence};
      var i := 0;
      while i < |cmds|
        invariant 0 <= i <= |cmds|
        invariant fences == old(fences) + {fence}
        invariant pendingCommandBuffers == old(pendingCommandBuffers) + Tagged(cmds[..i], fence)
      {
        assert Tagged(cmds[..i + 1], fence) == Tagged(cmds[..i], fence) + [(cmds[i], fence)];
        pendingCommandBuffers := pendingCommandBuffers + [(cmds[i], fence)];
        i := i + 1;
      }
      assert cmds[..i] == cmds;
    }

    /** The bookkeeping of `Present`, the same as the C API test's. */
    method Present(signalled: Fence -> bool)
      requires Valid()
      modifies this`fences, this`freeCommandBuffers, this`pendingCommandBuffers
      ensures Valid()
      ensures pendingCommandBuffers == StillPending(old(pendingCommandBuffers), signalled)
      ensures freeCommandBuffers == old(freeCommandBuffers) + Finished(old(pendingCommandBuffers), signalled)
      ensures fences == old(fences) - DoneFences(old(pendingCommandBuffers), signalled)
    {
      ghost var p0, f0 := pendingCommandBuffers, fences;
      pendingCommandBuffers, freeCommandBuffers, fences :=
        RecycleFinished(pendingCommandBuffers, freeCommandBuffers, fences, signalled);
      RecycleKeepsLiveFences(p0, f0, signalled);
    }

    /**
     * `GetCommandBuffer`: when none is free, the driver's four new buffers
     * are stored through a result checker, which reports a failed
     * allocation; the last free buffer is removed and returned.
     */
    method GetCommandBuffer(result: VkResult, newBuffers: seq<CommandBuffer>)
      returns (cmd: CommandBuffer, reported: bool)
      requires |newBuffers| == 4
      modifies this`freeCommandBuffers
      ensures reported <==> old(freeCommandBuffers) == [] && result != Success
      ensures old(freeCommandBuffers) != [] ==>
        cmd == old(freeCommandBuffers)[|old(freeCommandBuffers)| - 1] &&
        freeCommandBuffers == old(freeCommandBuffers)[..|old(freeCommandBuffers)| - 1]
      ensures old(freeCommandBuffers) == [] ==> cmd == newBuffers[3] && freeCommandBuffers == newBuffers[..3]
    {
      reported := false;
      if freeCommandBuffers == [] {
        freeCommandBuffers, reported := CheckResult(freeCommandBuffers, result, newBuffers);
      }
      cmd := freeCommandBuffers[|freeCommandBuffers| - 1];
      freeCommandBuffers := freeCommandBuffers[..|freeCommandBuffers| - 1];
    }
  }

  // ---- PipelineCreator -----------------------------------------------------

  datatype DynamicState = DynamicViewport | DynamicScissor | DynamicOther(code: nat)
  datatype Topology = PointList | LineList | LineStrip | TriangleList | TriangleStrip | TriangleFan
  datatype CullMode = CullNone | CullFront | CullBack | CullFrontAndBack
  datatype FrontFace = CounterClockwise | Clockwise
  datatype PolygonMode = PolygonFill | PolygonLine | PolygonPoint
  datatype LogicOp = LogicNoOp | LogicOther(code: nat)
  datatype BlendFactor = BlendZero | BlendOne | BlendSrcAlpha | BlendOneMinusSrcAlpha | BlendOtherFactor(code: nat)
  datatype BlendOp = BlendAdd | BlendOtherOp(code: nat)

  /** One colour attachment's blend state. */
  datatype BlendAttachment = BlendAttachment(
    blendEnable: bool, srcColor: BlendFactor, dstColor: BlendFactor, colorOp: BlendOp,
    srcAlpha: BlendFactor, dstAlpha: BlendFactor, alphaOp: BlendOp, writeMask: bv4)

  /** Source-alpha over blending of every channel, with `blendEnable` left false. */
  const AlphaBlend: BlendAttachment :=
    BlendAttachment(false, BlendSrcAlpha, BlendOneMinusSrcAlpha, BlendAdd,
                    BlendSrcAlpha, BlendOneMinusSrcAlpha, BlendAdd, 0xF)

  datatype ShaderStageInfo = ShaderStageInfo(stage: nat, shaderModule: nat, entry: string)

  /** The counts of a baked pipeline, each taken from its list. */
  datatype PipelineCounts = PipelineCounts(stageCount: nat, dynamicStateCount: nat, attachmentCount: nat,
                                           vertexBindingCount: nat, vertexAttributeCount: nat)

  /** The graphics pipeline builder: fixed-function defaults and lists the test fills in. */
  class PipelineCreator {
    var dyns: seq<DynamicState>
    var viewportCount: nat
    var scissorCount: nat
    var topology: Topology
    var cullMode: CullMode
    var depthClampEnable: bool
    var frontFace: FrontFace
    var polygonMode: PolygonMode
    var rasterizationSamples: nat
    var logicOp: LogicOp
    var blends: seq<BlendAttachment>
    var stages: seq<ShaderStageInfo>
    var binds: seq<nat>
    var attrs: seq<nat>

    /** The defaults: dynamic viewport and scissor, a filled unculled triangle list, one blend attachment. */
    constructor()
      ensures dyns == [DynamicViewport, DynamicScissor] && viewportCount == 1 && scissorCount == 1
      ensures topology == TriangleList && cullMode == CullNone && depthClampEnable
      ensures frontFace == Clockwise && polygonMode == PolygonFill
      ensures rasterizationSamples == 1 && logicOp == LogicNoOp
      ensures blends == [AlphaBlend]
      ensures stages == [] && binds == [] && attrs == []
    {
      dyns := [DynamicViewport, DynamicScissor];
      scissorCount, viewportCount := 1, 1;
      topology := TriangleList;
      cullMode, depthClampEnable, frontFace, polygonMode := CullNone, true, Clockwise, PolygonFill;
      rasterizationSamples := 1;
      logicOp := LogicNoOp;
      blends := [AlphaBlend];
      stages, binds, attrs := [], [], [];
    }

    /** `addShader`: appends one stage. */
    method AddShader(shaderModule: nat, stage: nat, entry: string)
      modifies this`stages
      ensures stages == old(stages) + [ShaderStageInfo(stage, shaderModule, entry)]
    {
      stages := stages + [ShaderStageInfo(stage, shaderModule, entry)];
    }

    /** `clearShaders`. */
    method ClearShaders()
      modifies this`stages
      ensures stages == []
    {
      stages := [];
    }

    /** `bake`: every count is the size of its list. */
    method Bake() returns (counts: PipelineCounts)
      ensures counts.stageCount == |stages| && counts.dynamicStateCount == |dyns|
      ensures counts.attachmentCount == |blends|
      ensures counts.vertexBindingCount == |binds| && counts.vertexAttributeCount == |attrs|
    {
      var dynamicStateCount := |dyns|;
      var attachmentCount := |blends|;
      var bindingCount, attributeCount := |binds|, |attrs|;
      counts := PipelineCounts(|stages|, dynamicStateCount, attachmentCount, bindingCount, attributeCount);
    }
  }
}
