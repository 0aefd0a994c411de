// The Vulkan test base class built on the C API: the selection rules in
// `Init`, submission and command-buffer recycling, descriptor pools, and
// the swapchain choices of `createSwap`.
module VkTest {
  import opened Common
  import opened VkHelpers

  /** Opaque Vulkan handles. */
  type Fence = nat
  type CommandBuffer = nat
  type DescriptorPool = nat

  // ---- Layers and extensions ---------------------------------------------

  const ValidationLayer: string := "VK_LAYER_LUNARG_standard_validation"
  const SurfaceExtension: string := "VK_KHR_surface"
  const Win32SurfaceExtension: string := "VK_KHR_win32_surface"
  const DebugReportExtension: string := "VK_EXT_debug_report"
  const SwapchainExtension: string := "VK_KHR_swapchain"

  /** The instance extensions `Init` requires: the surface, the Win32 surface on Windows, debug reports when debugging. */
  function InstanceExtensions(win32: bool, debugDevice: bool): (exts: seq<string>)
    ensures |exts| >= 1 && exts[0] == SurfaceExtension
    ensures Win32SurfaceExtension in exts <==> win32
    ensures DebugReportExtension in exts <==> debugDevice
  {
    [SurfaceExtension] + (if win32 then [Win32SurfaceExtension] else []) +
    (if debugDevice then [DebugReportExtension] else [])
  }

  /** The layers enabled: the standard validation layer, when debugging and the loader offers it. */
  function ValidationLayers(debugDevice: bool, supported: seq<string>): (layers: seq<string>)
    ensures |layers| <= 1 && forall l :: l in layers ==> l in supported && l == ValidationLayer
    ensures layers != [] <==> debugDevice && ValidationLayer in supported
  {
    if debugDevice && ValidationLayer in supported then [ValidationLayer] else []
  }

  /** The layer search: only when debugging, stopping at the first layer of that name. */
  method SelectLayers(debugDevice: bool, supported: seq<string>) returns (layers: seq<string>)
    ensures layers == ValidationLayers(debugDevice, supported)
  {
    layers := [];
    if debugDevice {
      var i := 0;
      while i < |supported|
        invariant 0 <= i <= |supported|
        invariant layers == [] && ValidationLayer !in supported[..i]
      {
        if supported[i] == ValidationLayer {
          layers := layers + [supported[i]];
          break;
        }
        i := i + 1;
      }
    }
  }

  /** Every required name is among the supported ones. */
  predicate AllPresent(required: seq<string>, supported: seq<string>)
  {
    forall r :: r in required ==> r in supported
  }

  /**
   * The extension check: for each required name in turn, a search of the
   * supported list; the first name not found is reported.
   */
  method FindMissing(required: seq<string>, supported: seq<string>) returns (missing: Option<string>)
    ensures missing.None? <==> AllPresent(required, supported)
    ensures missing.Some? ==> missing.value in required && missing.value !in supported
    ensures missing.Some? ==> exists i :: 0 <= i < |required| && required[i] == missing.value &&
                                          AllPresent(required[..i], supported)
  {
    var i := 0;
    while i < |required|
      invariant 0 <= i <= |required|
      invariant AllPresent(required[..i], supported)
    {
      var search := required[i];
      var found := false;
      var j := 0;
      while j < |supported|
        invariant 0 <= j <= |supported|
        invariant found ==> search in supported
        invariant !found ==> search !in supported[..j]
      {
        if supported[j] == search {
          found := true;
          break;
        }
        j := j + 1;
      }
      if !found {
        assert supported[..j] == supported;
        return Some(search);
      }
      assert required[..i + 1] == required[..i] + [required[i]];
      i := i + 1;
    }
    assert required[..i] == required;
    return None;
  }

  // ---- The queue family ----------------------------------------------------

  const QUEUE_GRAPHICS_BIT: bv32 := 0x1
  const QUEUE_COMPUTE_BIT: bv32 := 0x2

  /** A family whose flags contain both graphics and compute. */
  predicate GraphicsAndCompute(flags: bv32)
  {
    flags & (QUEUE_GRAPHICS_BIT | QUEUE_COMPUTE_BIT) == QUEUE_GRAPHICS_BIT | QUEUE_COMPUTE_BIT
  }

  /** The first family with graphics and compute, if any. */
  function FirstQueueFamily(flags: seq<bv32>): (r: Option<nat>)
    ensures r.Some? ==> r.value < |flags| && GraphicsAndCompute(flags[r.value]) &&
                        forall j :: 0 <= j < r.value ==> !GraphicsAndCompute(flags[j])
    ensures r.None? <==> forall j :: 0 <= j < |flags| ==> !GraphicsAndCompute(flags[j])
  {
    if flags == [] then None
    else if GraphicsAndCompute(flags[0]) then Some(0)
    else match FirstQueueFamily(flags[1..])
      case None => None
      case Some(k) => Some(k + 1)
  }

  /**
   * The search in `Init` as written: the index is only assigned when a
   * family qualifies, and otherwise keeps whatever `queueFamilyIndex`
   * held before, which the class never initialises.
   */
  method FindQueueFamily(flags: seq<bv32>, initial: u32) returns (index: u32)
    requires |flags| <= U32Max
    ensures FirstQueueFamily(flags).Some? ==> index == FirstQueueFamily(flags).value
    ensures FirstQueueFamily(flags).None? ==> index == initial
  {
    index := initial;
    var q: u32 := 0;
    while q < |flags|
      invariant 0 <= q <= |flags|
      invariant forall j :: 0 <= j < q ==> !GraphicsAndCompute(flags[j])
      invariant index == initial
    {
      if flags[q] & (QUEUE_GRAPHICS_BIT | QUEUE_COMPUTE_BIT) == QUEUE_GRAPHICS_BIT | QUEUE_COMPUTE_BIT {
        index := q;
        return;
      }
      q := q + 1;
    }
  }

  /**
   * With no suitable family, the `== ~0U` guard is passed whenever the
   * uninitialised index happens to hold another value: a device with one
   * graphics-only family is accepted and family 0 is used for a queue
   * that also needs compute.
   */
  lemma GarbageQueueIndexPassesGuard()
    ensures FirstQueueFamily([QUEUE_GRAPHICS_BIT]).None?
    ensures var initial: u32 := 0;
      initial != U32Max && !GraphicsAndCompute([QUEUE_GRAPHICS_BIT][initial])
  {
  }

  // ---- Device features -----------------------------------------------------

  /** Every requested feature is supported. */
  predicate FeaturesSupported(requested: seq<bool>, supported: seq<bool>)
  {
    |requested| == |supported| && forall i :: 0 <= i < |requested| ==> requested[i] ==> supported[i]
  }

  /**
   * The feature check as written: both cursors walk the requested
   * features, so each flag is compared with itself and the check passes
   * whatever the device supports.
   */
  method FeatureCheckAsWritten(requested: seq<bool>) returns (ok: bool)
    ensures ok
  {
    var i := 0;
    while i < |requested|
      invariant 0 <= i <= |requested|
    {
      var enabled, supported := requested[i], requested[i];
      if enabled && !supported {
        return false;
      }
      i := i + 1;
    }
    return true;
  }

  /** The feature check as intended: the enabled flags against the device's. */
  method CheckFeatures(requested: seq<bool>, supported: seq<bool>) returns (ok: bool)
    requires |requested| == |supported|
    ensures ok <==> FeaturesSupported(requested, supported)
  {
    var i := 0;
    while i < |requested|
      invariant 0 <= i <= |requested|
      invariant forall j :: 0 <= j < i ==> requested[j] ==> supported[j]
    {
      if requested[i] && !supported[i] {
        return false;
      }
      i := i + 1;
    }
    return true;
  }

  /** A device lacking a requested feature, which the check as written lets through. */
  lemma UnsupportedFeatureExample()
    ensures !FeaturesSupported([true], [false])
  {
    assert [true][0] && !([false][0]);
  }

  // ---- Init ----------------------------------------------------------------

  /** What `Init` learns from the platform and the driver. */
  datatype InitEnv = InitEnv(
    volkOk: bool, glslcOk: bool, win32: bool, debugDevice: bool,
    supportedLayers: seq<string>, supportedInstanceExts: seq<string>,
    physicalDevices: nat, queueFlags: seq<bv32>, surfaceOk: bool,
    requestedFeatures: seq<bool>, supportedFeatures: seq<bool>, supportedDeviceExts: seq<string>)

  datatype InitFailure =
    | VulkanMissing | GlslcMissing | MissingInstanceExtension(name: string) | NoDevices
    | NoQueueFamily | SurfaceFailed | UnsupportedFeature | MissingDeviceExtension(name: string)

  /** The device `Init` asks for, with the layers and extensions it enabled. */
  datatype DeviceSetup = DeviceSetup(layers: seq<string>, instanceExts: seq<string>, queueFamily: nat,
                                     device: DeviceCreateInfo)

  /** Everything the intended `Init` needs for success. */
  predicate InitSucceeds(env: InitEnv)
  {
    env.volkOk && env.glslcOk &&
    AllPresent(InstanceExtensions(env.win32, env.debugDevice), env.supportedInstanceExts) &&
    env.physicalDevices > 0 && FirstQueueFamily(env.queueFlags).Some? && env.surfaceOk &&
    FeaturesSupported(env.requestedFeatures, env.supportedFeatures) &&
    AllPresent([SwapchainExtension], env.supportedDeviceExts)
  }

  /**
   * `Init` as evidently intended: the queue family search starts from
   * `~0U` and the feature check compares against the device's features.
   */
  method InitIntended(env: InitEnv) returns (r: Result<DeviceSetup, InitFailure>)
    requires |env.requestedFeatures| == |env.supportedFeatures|
    ensures r.Ok? <==> InitSucceeds(env)
    ensures !env.volkOk ==> r == Error(VulkanMissing)
    ensures r.Ok? ==> r.value.layers == ValidationLayers(env.debugDevice, env.supportedLayers)
    ensures r.Ok? ==> r.value.instanceExts == InstanceExtensions(env.win32, env.debugDevice)
    ensures r.Ok? ==> r.value.queueFamily == FirstQueueFamily(env.queueFlags).value
    ensures r.Ok? ==> (r.value.device ==
      MakeDeviceCreateInfo([DeviceQueueCreateInfo(r.value.queueFamily, 1)], r.value.layers, [SwapchainExtension],
                           Some(env.requestedFeatures)))
    ensures r.Error? && r.error.MissingInstanceExtension? ==>
      r.error.name in InstanceExtensions(env.win32, env.debugDevice) && r.error.name !in env.supportedInstanceExts
    ensures r.Error? && r.error.MissingDeviceExtension? ==> r.error.name !in env.supportedDeviceExts
  {
    if !env.volkOk {
      return Error(VulkanMissing);
    }
    if !env.glslcOk {
      return Error(GlslcMissing);
    }
    var instExts := InstanceExtensions(env.win32, env.debugDevice);
    var layers := SelectLayers(env.debugDevice, env.supportedLayers);
    var missing := FindMissing(instExts, env.supportedInstanceExts);
    if missing.Some? {
      return Error(MissingInstanceExtension(missing.value));
    }
    if env.physicalDevices == 0 {
      return Error(NoDevices);
    }
    var queueFamily := FirstQueueFamily(env.queueFlags);
    if queueFamily.None? {
      return Error(NoQueueFamily);
    }
    if !env.surfaceOk {
      return Error(SurfaceFailed);
    }
    var devExts := [SwapchainExtension];
    var featuresOk := CheckFeatures(env.requestedFeatures, env.supportedFeatures);
    if !featuresOk {
      return Error(UnsupportedFeature);
    }
    missing := FindMissing(devExts, env.supportedDeviceExts);
    if missing.Some? {
      return Error(MissingDeviceExtension(missing.value));
    }
    var device := MakeDeviceCreateInfo([DeviceQueueCreateInfo(queueFamily.value, 1)], layers, devExts,
                                       Some(env.requestedFeatures));
    return Ok(DeviceSetup(layers, instExts, queueFamily.value, device));
  }

  /**
   * What `Init` as written needs for success. The feature check never
   * fails, and the `~0U` guard is passed by a qualifying family or by an
   * index that already held another value before the search.
   */
  predicate InitSucceedsAsWritten(env: InitEnv, initialIndex: u32)
  {
    env.volkOk && env.glslcOk &&
    AllPresent(InstanceExtensions(env.win32, env.debugDevice), env.supportedInstanceExts) &&
    env.physicalDevices > 0 && (FirstQueueFamily(env.queueFlags).Some? || initialIndex != U32Max) &&
    env.surfaceOk && AllPresent([SwapchainExtension], env.supportedDeviceExts)
  }

  /**
   * `Init` as written. `initialIndex` is what `queueFamilyIndex` held
   * before the search: the class never assigns it, and the test object
   * lives in a static registration, so it is zero there. The feature check
   * compares the requested features with themselves.
   */
  method Init(env: InitEnv, initialIndex: u32) returns (r: Result<DeviceSetup, InitFailure>)
    requires |env.queueFlags| <= U32Max
    ensures r.Ok? <==> InitSucceedsAsWritten(env, initialIndex)
    ensures !env.volkOk ==> r == Error(VulkanMissing)
    ensures r != Error(UnsupportedFeature)
    ensures r.Ok? ==> r.value.layers == ValidationLayers(env.debugDevice, env.supportedLayers)
    ensures r.Ok? ==> r.value.instanceExts == InstanceExtensions(env.win32, env.debugDevice)
    ensures r.Ok? ==> (r.value.queueFamily ==
      if FirstQueueFamily(env.queueFlags).Some? then FirstQueueFamily(env.queueFlags).value else initialIndex)
    ensures r.Ok? ==> (r.value.device ==
      MakeDeviceCreateInfo([DeviceQueueCreateInfo(r.value.queueFamily, 1)], r.value.layers, [SwapchainExtension],
                           Some(env.requestedFeatures)))
    ensures r.Error? && r.error.MissingInstanceExtension? ==>
      r.error.name in InstanceExtensions(env.win32, env.debugDevice) && r.error.name !in env.supportedInstanceExts
    ensures r.Error? && r.error.MissingDeviceExtension? ==> r.error.name !in env.supportedDeviceExts
  {
    if !env.volkOk {
      return Error(VulkanMissing);
    }
    if !env.glslcOk {
      return Error(GlslcMissing);
    }
    var instExts := InstanceExtensions(env.win32, env.debugDevice);
    var layers := SelectLayers(env.debugDevice, env.supportedLayers);
    var missing := FindMissing(instExts, env.supportedInstanceExts);
    if missing.Some? {
      return Error(MissingInstanceExtension(missing.value));
    }
    if env.physicalDevices == 0 {
      return Error(NoDevices);
    }
    var queueFamilyIndex := FindQueueFamily(env.queueFlags, initialIndex);
    if queueFamilyIndex == U32Max {
      return Error(NoQueueFamily);
    }
    if !env.surfaceOk {
      return Error(SurfaceFailed);
    }
    var devExts := [SwapchainExtension];
    var featuresOk := FeatureCheckAsWritten(env.requestedFeatures);
    if !featuresOk {
      return Error(UnsupportedFeature);
    }
    missing := FindMissing(devExts, env.supportedDeviceExts);
    if missing.Some? {
      return Error(MissingDeviceExtension(missing.value));
    }
    var device := MakeDeviceCreateInfo([DeviceQueueCreateInfo(queueFamilyIndex, 1)], layers, devExts,
                                       Some(env.requestedFeatures));
    return Ok(DeviceSetup(layers, instExts, queueFamilyIndex, device));
  }

  /**
   * Started from `~0U` on a device that supports the requested features,
   * `Init` as written succeeds exactly when the intended one does.
   */
  lemma InitAgreesWhenInitialised(env: InitEnv)
    requires FeaturesSupported(env.requestedFeatures, env.supportedFeatures)
    ensures InitSucceeds(env) <==> InitSucceedsAsWritten(env, U32Max)
  {
  }

  /** Every environment the intended `Init` accepts, `Init` as written accepts from any starting index. */
  lemma InitAsWrittenAcceptsMore(env: InitEnv, initialIndex: u32)
    requires InitSucceeds(env)
    ensures InitSucceedsAsWritten(env, initialIndex)
  {
  }

  /**
   * A device with one graphics-only family that lacks the one requested
   * feature: `Init` as written, from the zeroed index, creates the device
   * on family 0; the intended `Init` refuses it.
   */
  lemma InitAsWrittenAcceptsBadDevice()
    ensures var env := InitEnv(true, true, false, false, [], [SurfaceExtension], 1, [QUEUE_GRAPHICS_BIT], true,
                               [true], [false], [SwapchainExtension]);
      InitSucceedsAsWritten(env, 0) && !InitSucceeds(env)
  {
    var env := InitEnv(true, true, false, false, [], [SurfaceExtension], 1, [QUEUE_GRAPHICS_BIT], true,
                       [true], [false], [SwapchainExtension]);
    GarbageQueueIndexPassesGuard();
    UnsupportedFeatureExample();
    assert InstanceExtensions(false, false) == [SurfaceExtension];
    assert AllPresent(InstanceExtensions(false, false), env.supportedInstanceExts);
    assert AllPresent([SwapchainExtension], env.supportedDeviceExts);
  }

  // ---- Submission ----------------------------------------------------------

  /** The synchronisation parts of a `VkSubmitInfo`, and its command buffer count. */
  datatype SubmitInfo = SubmitInfo(waitSemaphoreCount: nat, waitStageMaskSet: bool,
                                   signalSemaphoreCount: nat, commandBufferCount: nat)

  /**
   * Submission `index` of `totalSubmits` in a frame: the first waits on
   * the start semaphore (with its stage mask), the last signals the end
   * semaphore.
   */
  function SubmitSync(index: int, totalSubmits: int, n: nat): (info: SubmitInfo)
    ensures info.commandBufferCount == n
    ensures info.waitSemaphoreCount <= 1 && info.signalSemaphoreCount <= 1
    ensures info.waitSemaphoreCount == 1 <==> index == 0
    ensures info.waitStageMaskSet <==> index == 0
    ensures info.signalSemaphoreCount == 1 <==> index == totalSubmits - 1
  {
    SubmitInfo(if index == 0 then 1 else 0, index == 0, if index == totalSubmits - 1 then 1 else 0, n)
  }

  /** Over one frame of submissions, only the first waits and only the last signals. */
  lemma FrameWaitsOnceAndSignalsOnce(totalSubmits: nat)
    requires totalSubmits >= 1
    ensures (set i | 0 <= i < totalSubmits && SubmitSync(i, totalSubmits, 0).waitSemaphoreCount == 1) == {0}
    ensures (set i | 0 <= i < totalSubmits && SubmitSync(i, totalSubmits, 0).signalSemaphoreCount == 1) == {totalSubmits - 1}
  {
    assert 0 in (set i | 0 <= i < totalSubmits && SubmitSync(i, totalSubmits, 0).waitSemaphoreCount == 1);
    assert totalSubmits - 1 in
      (set i | 0 <= i < totalSubmits && SubmitSync(i, totalSubmits, 0).signalSemaphoreCount == 1);
  }

  /** Each command buffer of a submission paired with its fence. */
  function Tagged(cmds: seq<CommandBuffer>, fence: Fence): (p: seq<(CommandBuffer, Fence)>)
    ensures |p| == |cmds| && forall i :: 0 <= i < |p| ==> p[i] == (cmds[i], fence)
  {
    seq(|cmds|, i requires 0 <= i < |cmds| => (cmds[i], fence))
  }

  // ---- Recycling finished command buffers ----------------------------------

  /** The command buffers of pending entries. */
  function Cmds(p: seq<(CommandBuffer, Fence)>): (c: seq<CommandBuffer>)
    ensures |c| == |p| && forall i :: 0 <= i < |p| ==> c[i] == p[i].0
  {
    if p == [] then [] else Cmds(p[..|p| - 1]) + [p[|p| - 1].0]
  }

  /** The entries whose fence has not signalled, in order. */
  function StillPending(p: seq<(CommandBuffer, Fence)>, signalled: Fence -> bool): seq<(CommandBuffer, Fence)>
  {
    if p == [] then []
    else StillPending(p[..|p| - 1], signalled) + (if signalled(p[|p| - 1].1) then [] else [p[|p| - 1]])
  }

  /** The command buffers whose fence has signalled, in order. */
  function Finished(p: seq<(CommandBuffer, Fence)>, signalled: Fence -> bool): seq<CommandBuffer>
  {
    if p == [] then []
    else Finished(p[..|p| - 1], signalled) + (if signalled(p[|p| - 1].1) then [p[|p| - 1].0] else [])
  }

  /** The signalled fences of the pending entries. */
  function DoneFences(p: seq<(CommandBuffer, Fence)>, signalled: Fence -> bool): set<Fence>
  {
    if p == [] then {}
    else DoneFences(p[..|p| - 1], signalled) + (if signalled(p[|p| - 1].1) then {p[|p| - 1].1} else {})
  }

  /** One more pending entry goes to exactly one side of the split. */
  lemma RecycleStep(q: seq<(CommandBuffer, Fence)>, e: (CommandBuffer, Fence), signalled: Fence -> bool)
    ensures var p := q + [e];
      if signalled(e.1) then
        Finished(p, signalled) == Finished(q, signalled) + [e.0] && StillPending(p, signalled) == StillPending(q, signalled)
      else
        Finished(p, signalled) == Finished(q, signalled) && StillPending(p, signalled) == StillPending(q, signalled) + [e]
  {
    var p := q + [e];
    assert p[..|p| - 1] == q && p[|p| - 1] == e;
  }

  /** Recycling loses and duplicates no command buffer: each is either freed or still pending. */
  lemma {:induction false} RecyclePartitions(p: seq<(CommandBuffer, Fence)>, signalled: Fence -> bool)
    ensures |Finished(p, signalled)| + |StillPending(p, signalled)| == |p|
    ensures multiset(Finished(p, signalled)) + multiset(Cmds(StillPending(p, signalled))) == multiset(Cmds(p))
  {
    if p != [] {
      var q, e := p[..|p| - 1], p[|p| - 1];
      assert p == q + [e];
      RecyclePartitions(q, signalled);
      RecycleStep(q, e, signalled);
      var f, s := Finished(q, signalled), StillPending(q, signalled);
      CmdsSnoc(q, e);
      if signalled(e.1) {
        assert Finished(p, signalled) == f + [e.0];
        assert StillPending(p, signalled) == s;
      } else {
        assert Finished(p, signalled) == f;
        assert StillPending(p, signalled) == s + [e];
        CmdsSnoc(s, e);
      }
    }
  }

  /** The command buffers of one more entry. */
  lemma CmdsSnoc(q: seq<(CommandBuffer, Fence)>, e: (CommandBuffer, Fence))
    ensures Cmds(q + [e]) == Cmds(q) + [e.0]
    ensures multiset(Cmds(q + [e])) == multiset(Cmds(q)) + multiset{e.0}
  {
    assert (q + [e])[..|q|] == q;
  }

  /**
   * What stays pending is unsignalled and was pending before; every fence
   * retired was signalled and belonged to a pending entry.
   */
  lemma {:induction false} RecycleSplitsBySignal(p: seq<(CommandBuffer, Fence)>, signalled: Fence -> bool)
    ensures forall e :: e in StillPending(p, signalled) ==> e in p && !signalled(e.1)
    ensures forall f :: f in DoneFences(p, signalled) ==> signalled(f) && exists e :: e in p && e.1 == f
  {
    if p != [] {
      var q := p[..|p| - 1];
      RecycleSplitsBySignal(q, signalled);
      assert forall e :: e in q ==> e in p;
    }
  }

  /** Entries left pending still wait on fences that were not retired. */
  lemma RecycleKeepsLiveFences(p: seq<(CommandBuffer, Fence)>, fences: set<Fence>, signalled: Fence -> bool)
    requires forall i :: 0 <= i < |p| ==> p[i].1 in fences
    ensures var rest := StillPending(p, signalled);
      forall i :: 0 <= i < |rest| ==> rest[i].1 in fences - DoneFences(p, signalled)
  {
    RecycleSplitsBySignal(p, signalled);
    var rest := StillPending(p, signalled);
    forall i | 0 <= i < |rest|
      ensures rest[i].1 in fences - DoneFences(p, signalled)
    {
      assert rest[i] in rest;
    }
  }

  /**
   * The two loops of `Present`: the erase loop over the pending list,
   * moving entries whose fence signalled to the free list and collecting
   * their fences, then the removal of those fences from the fence set.
   */
  method RecycleFinished(pending: seq<(CommandBuffer, Fence)>, free: seq<CommandBuffer>, fences: set<Fence>,
                         signalled: Fence -> bool)
    returns (pending': seq<(CommandBuffer, Fence)>, free': seq<CommandBuffer>, fences': set<Fence>)
    ensures pending' == StillPending(pending, signalled)
    ensures free' == free + Finished(pending, signalled)
    ensures fences' == fences - DoneFences(pending, signalled)
  {
    pending', free' := pending, free;
    var done: set<Fence> := {};
    var i := 0;
    ghost var k := 0;
    while i < |pending'|
      invariant 0 <= k <= |pending| && 0 <= i <= |pending'|
      invariant pending'[..i] == StillPending(pending[..k], signalled)
      invariant pending'[i..] == pending[k..]
      invariant free' == free + Finished(pending[..k], signalled)
      invariant done == DoneFences(pending[..k], signalled)
      decreases |pending| - k
    {
      var entry := pending'[i];
      assert entry == pending[k] by { assert pending'[i..][0] == pending[k..][0]; }
      assert pending[..k + 1][..k] == pending[..k];
      if signalled(entry.1) {
        free' := free' + [entry.0];
        done := done + {entry.1};
        pending' := pending'[..i] + pending'[i + 1..];
        assert pending'[i..] == pending[k + 1..];
      } else {
        assert pending'[..i + 1] == pending'[..i] + [entry];
        i := i + 1;
      }
      k := k + 1;
    }
    assert pending[k..] == [] by { assert pending'[i..] == []; }
    assert pending[..k] == pending;
    assert pending'[..i] == pending';
    fences' := fences;
    var rest := done;
    while rest != {}
      invariant rest <= done
      invariant fences' == fences - (done - rest)
      decreases rest
    {
      var f :| f in rest;
      fences' := fences' - {f};
      rest := rest - {f};
    }
  }

  // ---- Swapchain choices ---------------------------------------------------

  const FORMAT_UNDEFINED: nat := 0
  const FORMAT_B8G8R8A8_UNORM: nat := 44
  const COLOR_SPACE_SRGB_NONLINEAR: nat := 0
  const PRESENT_MODE_IMMEDIATE: nat := 0
  const PRESENT_MODE_FIFO: nat := 2

  datatype SurfaceFormat = SurfaceFormat(format: nat, colorSpace: nat)

  const PreferredFormat: SurfaceFormat := SurfaceFormat(FORMAT_B8G8R8A8_UNORM, COLOR_SPACE_SRGB_NONLINEAR)

  /** The surface format chosen from a non-empty list. */
  function ChosenSurfaceFormat(formats: seq<SurfaceFormat>): (f: SurfaceFormat)
    requires formats != []
    ensures f.format != FORMAT_UNDEFINED
    ensures f in formats || formats[0].format == FORMAT_UNDEFINED
    ensures PreferredFormat in formats ==> f == PreferredFormat
    ensures PreferredFormat !in formats && formats[0].format != FORMAT_UNDEFINED ==> f == formats[0]
  {
    if PreferredFormat in formats then PreferredFormat
    else if formats[0].format == FORMAT_UNDEFINED then PreferredFormat
    else formats[0]
  }

  /**
   * The format search in `createSwap`: the first entry, replaced by the
   * first B8G8R8A8_UNORM / sRGB entry if there is one, and an undefined
   * format replaced by that pair.
   */
  method ChooseSurfaceFormat(formats: seq<SurfaceFormat>) returns (format: SurfaceFormat)
    requires formats != []
    ensures format == ChosenSurfaceFormat(formats)
  {
    format := formats[0];
    var i := 0;
    while i < |formats|
      invariant 0 <= i <= |formats|
      invariant format == formats[0] && PreferredFormat !in formats[..i]
    {
      var f := formats[i];
      if f.format == FORMAT_B8G8R8A8_UNORM && f.colorSpace == COLOR_SPACE_SRGB_NONLINEAR {
        format := f;
        break;
      }
      i := i + 1;
    }
    if format.format == FORMAT_UNDEFINED {
      format := format.(format := FORMAT_B8G8R8A8_UNORM, colorSpace := COLOR_SPACE_SRGB_NONLINEAR);
    }
  }

  /** Immediate presentation when the surface offers it, FIFO (always available) otherwise. */
  function ChoosePresentMode(modes: seq<nat>): (mode: nat)
    ensures mode == PRESENT_MODE_IMMEDIATE <==> PRESENT_MODE_IMMEDIATE in modes
    ensures mode == PRESENT_MODE_IMMEDIATE || mode == PRESENT_MODE_FIFO
  {
    if PRESENT_MODE_IMMEDIATE in modes then PRESENT_MODE_IMMEDIATE else PRESENT_MODE_FIFO
  }

  /** `max(min(cur, maxExtent), minExtent)`. */
  function ClampExtent(cur: u32, minExtent: u32, maxExtent: u32): (r: u32)
    ensures r >= minExtent
    ensures minExtent <= maxExtent ==> r <= maxExtent
    ensures minExtent <= cur <= maxExtent ==> r == cur
    ensures cur < minExtent ==> r == minExtent
    ensures maxExtent < cur ==> r == Max(maxExtent, minExtent)
  {
    Max(Min(cur, maxExtent), minExtent)
  }

  /** Clamping an extent already clamped to a valid range changes nothing. */
  lemma ClampExtentIdempotent(cur: u32, minExtent: u32, maxExtent: u32)
    requires minExtent <= maxExtent
    ensures ClampExtent(ClampExtent(cur, minExtent, maxExtent), minExtent, maxExtent) == ClampExtent(cur, minExtent, maxExtent)
  {
  }

  datatype SurfaceCapabilities = SurfaceCapabilities(
    currentWidth: u32, currentHeight: u32, minWidth: u32, minHeight: u32, maxWidth: u32, maxHeight: u32)

  /** What `createSwap` asks the driver for. */
  datatype SwapChoice = SwapChoice(format: SurfaceFormat, mode: nat, width: u32, height: u32)

  /**
   * The choices of `createSwap`: none when the surface lists no format;
   * otherwise the chosen format and mode, and the current extent clamped
   * to the surface's range.
   */
  method CreateSwap(formats: seq<SurfaceFormat>, modes: seq<nat>, caps: SurfaceCapabilities)
    returns (choice: Option<SwapChoice>)
    ensures choice.None? <==> formats == []
    ensures choice.Some? ==> choice.value.format == ChosenSurfaceFormat(formats)
    ensures choice.Some? ==> choice.value.mode == ChoosePresentMode(modes)
    ensures choice.Some? ==> choice.value.width == ClampExtent(caps.currentWidth, caps.minWidth, caps.maxWidth)
    ensures choice.Some? ==> choice.value.height == ClampExtent(caps.currentHeight, caps.minHeight, caps.maxHeight)
  {
    if formats == [] {
      return None;
    }
    var format := ChooseSurfaceFormat(formats);
    var mode := ChoosePresentMode(modes);
    var width := caps.currentWidth;
    width := Min(width, caps.maxWidth);
    width := Max(width, caps.minWidth);
    var height := caps.currentHeight;
    height := Min(height, caps.maxHeight);
    height := Max(height, caps.minHeight);
    return Some(SwapChoice(format, mode, width, height));
  }

  // ---- The test object's bookkeeping ---------------------------------------

  /** The command buffer, fence and descriptor pool bookkeeping of the Vulkan test base class. */
  class VulkanGraphicsTest {
    var fences: set<Fence>
    var freeCommandBuffers: seq<CommandBuffer>
    var pendingCommandBuffers: seq<(CommandBuffer, Fence)>
    var descPools: seq<DescriptorPool>

    /** Every pending command buffer waits on a fence that is still alive. */
    ghost predicate Valid()
      reads this
    {
      forall i :: 0 <= i < |pendingCommandBuffers| ==> pendingCommandBuffers[i].1 in fences
    }

    constructor()
      ensures Valid()
      ensures fences == {} && freeCommandBuffers == [] && pendingCommandBuffers == [] && descPools == []
    {
      fences, freeCommandBuffers, pendingCommandBuffers, descPools := {}, [], [], [];
    }

    /**
     * `Submit(index, totalSubmits, cmds)`; `fence` is the fence the driver
     * creates for it. Returns the submission's synchronisation.
     */
    method Submit(index: int, totalSubmits: int, cmds: seq<CommandBuffer>, fence: Fence) returns (info: SubmitInfo)
      requires Valid()
      modifies this`fences, this`pendingCommandBuffers
      ensures Valid()
      ensures info == SubmitSync(index, totalSubmits, |cmds|)
      ensures fences == old(fences) + {fence}
      ensures pendingCommandBuffers == old(pendingCommandBuffers) + Tagged(cmds, fence)
    {
      info := SubmitInfo(0, false, 0, |cmds|);
      if index == 0 {
        info := info.(waitSemaphoreCount := 1, waitStageMaskSet := true);
      }
      if index == totalSubmits - 1 {
        info := info.(signalSemaphoreCount := 1);
      }
      fences := fences + {fence};
      var i := 0;
      while i < |cmds|
        invariant 0 <= i <= |cmds|
        invariant fences == old(fences) + {fence}
        invariant pendingCommandBuffers == old(pendingCommandBuffers) + Tagged(cmds[..i], fence)
      {
        assert Tagged(cmds[..i + 1], fence) == Tagged(cmds[..i], fence) + [(cmds[i], fence)];
        pendingCommandBuffers := pendingCommandBuffers + [(cmds[i], fence)];
        i := i + 1;
      }
      assert cmds[..i] == cmds;
    }

    /**
     * The bookkeeping of `Present`; `signalled(f)` is whether fence `f`
     * reports success once the queue is idle.
     */
    method Present(signalled: Fence -> bool)
      requires Valid()
      modifies this`fences, this`freeCommandBuffers, this`pendingCommandBuffers
      ensures Valid()
      ensures pendingCommandBuffers == StillPending(old(pendingCommandBuffers), signalled)
      ensures freeCommandBuffers == old(freeCommandBuffers) + Finished(old(pendingCommandBuffers), signalled)
      ensures fences == old(fences) - DoneFences(old(pendingCommandBuffers), signalled)
    {
      ghost var p0, f0 := pendingCommandBuffers, fences;
      pendingCommandBuffers, freeCommandBuffers, fences :=
        RecycleFinished(pendingCommandBuffers, freeCommandBuffers, fences, signalled);
      RecycleKeepsLiveFences(p0, f0, signalled);
    }

    /**
     * `GetCommandBuffer`: when none is free, the 4 buffers the driver
     * allocates (`newBuffers`) become the free list; the last free buffer is
     * removed and returned.
     */
    method GetCommandBuffer(newBuffers: seq<CommandBuffer>) returns (cmd: CommandBuffer)
      requires |newBuffers| == 4
      modifies this`freeCommandBuffers
      ensures old(freeCommandBuffers) != [] ==>
        cmd == old(freeCommandBuffers)[|old(freeCommandBuffers)| - 1] &&
        freeCommandBuffers == old(freeCommandBuffers)[..|old(freeCommandBuffers)| - 1]
      ensures old(freeCommandBuffers) == [] ==> cmd == newBuffers[3] && freeCommandBuffers == newBuffers[..3]
      ensures freeCommandBuffers + [cmd] == (if old(freeCommandBuffers) == [] then newBuffers else old(freeCommandBuffers))
    {
      if freeCommandBuffers == [] {
        freeCommandBuffers := newBuffers;
      }
      cmd := freeCommandBuffers[|freeCommandBuffers| - 1];
      freeCommandBuffers := freeCommandBuffers[..|freeCommandBuffers| - 1];
    }

    /**
     * `allocateDescriptorSet`: the set comes from the last pool when that
     * allocation succeeds (`lastPoolSucceeds`); otherwise from `newPool`,
     * which is appended. Returns the pool used.
     */
    method AllocateDescriptorSet(lastPoolSucceeds: bool, newPool: DescriptorPool) returns (pool: DescriptorPool)
      modifies this`descPools
      ensures old(descPools) != [] && lastPoolSucceeds ==>
        descPools == old(descPools) && pool == old(descPools)[|old(descPools)| - 1]
      ensures old(descPools) == [] || !lastPoolSucceeds ==> descPools == old(descPools) + [newPool] && pool == newPool
      ensures descPools != [] && pool == descPools[|descPools| - 1]
    {
      if descPools != [] {
        pool := descPools[|descPools| - 1];
        if lastPoolSucceeds {
          return;
        }
      }
      pool := newPool;
      descPools := descPools + [pool];
    }
  }
}
