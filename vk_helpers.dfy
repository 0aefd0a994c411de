// Vulkan create-info helpers of the demos: image and attachment defaulting,
// descriptor writes, device creation, and the render pass builder that
// stores attachment-reference pointers as fake offsets until it is baked.
module VkHelpers {
  import opened Common

  // ---- Images ------------------------------------------------------------

  datatype ImageType = Image1D | Image2D | Image3D

  datatype Extent3D = Extent3D(width: u32, height: u32, depth: u32)

  datatype ImageCreateInfo = ImageCreateInfo(
    flags: nat, imageType: ImageType, format: nat, extent: Extent3D, mipLevels: u32, arrayLayers: u32,
    samples: nat, usage: nat)

  function Max1(x: u32): (r: u32)
    ensures r >= 1 && r >= x
    ensures x > 0 ==> r == x
  {
    if x > 0 then x else 1
  }

  /**
   * The `ImageCreateInfo` constructor: every extent component is at least
   * one, and the image type comes from the arguments as given, before they
   * are clamped.
   */
  function MakeImageCreateInfo(width: u32, height: u32, depth: u32, format: nat, usage: nat,
                               mipLevels: u32, arrayLayers: u32, samples: nat, flags: nat): (info: ImageCreateInfo)
    ensures info.extent.width >= 1 && info.extent.height >= 1 && info.extent.depth >= 1
    ensures width > 0 ==> info.extent.width == width
    ensures height > 0 ==> info.extent.height == height
    ensures depth > 0 ==> info.extent.depth == depth
    ensures info.imageType == Image3D <==> depth > 0
    ensures info.imageType == Image2D <==> depth == 0 && height > 0
    ensures info.imageType == Image1D <==> depth == 0 && height == 0
    ensures info.format == format && info.usage == usage && info.mipLevels == mipLevels
    ensures info.arrayLayers == arrayLayers && info.samples == samples && info.flags == flags
  {
    var imageType := if depth > 0 then Image3D else if height > 0 then Image2D else Image1D;
    ImageCreateInfo(flags, imageType, format, Extent3D(Max1(width), Max1(height), Max1(depth)),
                    mipLevels, arrayLayers, samples, usage)
  }

  /** The type is not a function of the clamped extent: a 4x0x0 and a 4x1x1 image share an extent but not a type. */
  lemma ImageTypeFromRawArguments()
    ensures var a := MakeImageCreateInfo(4, 0, 0, 0, 0, 1, 1, 1, 0);
      var b := MakeImageCreateInfo(4, 1, 1, 0, 0, 1, 1, 1, 0);
      a.extent == b.extent && a.imageType == Image1D && b.imageType == Image3D
  {
  }

  // ---- Attachments -------------------------------------------------------

  /** `VK_ATTACHMENT_LOAD_OP_*`, with the MAX_ENUM value meaning "not given". */
  datatype LoadOp = LoadOpLoad | LoadOpClear | LoadOpDontCare | LoadOpMaxEnum
  /** `VK_ATTACHMENT_STORE_OP_*`, with the MAX_ENUM value meaning "not given". */
  datatype StoreOp = StoreOpStore | StoreOpDontCare | StoreOpMaxEnum

  datatype AttachmentDescription = AttachmentDescription(
    flags: nat, format: nat, samples: nat, loadOp: LoadOp, storeOp: StoreOp,
    stencilLoadOp: LoadOp, stencilStoreOp: StoreOp, initialLayout: nat, finalLayout: nat)

  /**
   * The `AttachmentDescription` constructor: an unset load/store op becomes
   * LOAD/STORE, and an unset stencil op copies the resolved colour op.
   */
  function MakeAttachmentDescription(format: nat, initialLayout: nat, finalLayout: nat, loadOp: LoadOp,
                                     storeOp: StoreOp, samples: nat, stencilLoadOp: LoadOp,
                                     stencilStoreOp: StoreOp, flags: nat): (d: AttachmentDescription)
    ensures loadOp != LoadOpMaxEnum ==> d.loadOp == loadOp
    ensures loadOp == LoadOpMaxEnum ==> d.loadOp == LoadOpLoad
    ensures storeOp != StoreOpMaxEnum ==> d.storeOp == storeOp
    ensures storeOp == StoreOpMaxEnum ==> d.storeOp == StoreOpStore
    ensures stencilLoadOp != LoadOpMaxEnum ==> d.stencilLoadOp == stencilLoadOp
    ensures stencilLoadOp == LoadOpMaxEnum ==> d.stencilLoadOp == d.loadOp
    ensures stencilStoreOp != StoreOpMaxEnum ==> d.stencilStoreOp == stencilStoreOp
    ensures stencilStoreOp == StoreOpMaxEnum ==> d.stencilStoreOp == d.storeOp
    ensures d.format == format && d.samples == samples && d.flags == flags
    ensures d.initialLayout == initialLayout && d.finalLayout == finalLayout
  {
    var load := if loadOp != LoadOpMaxEnum then loadOp else LoadOpLoad;
    var store := if storeOp != StoreOpMaxEnum then storeOp else StoreOpStore;
    AttachmentDescription(flags, format, samples, load, store,
                          if stencilLoadOp != LoadOpMaxEnum then stencilLoadOp else load,
                          if stencilStoreOp != StoreOpMaxEnum then stencilStoreOp else store,
                          initialLayout, finalLayout)
  }

  /** No op of a constructed description is left unset. */
  predicate Resolved(d: AttachmentDescription)
  {
    d.loadOp != LoadOpMaxEnum && d.storeOp != StoreOpMaxEnum &&
    d.stencilLoadOp != LoadOpMaxEnum && d.stencilStoreOp != StoreOpMaxEnum
  }

  /** Every constructed description is resolved, and constructing again from it changes nothing. */
  lemma AttachmentDefaultsIdempotent(format: nat, initialLayout: nat, finalLayout: nat, loadOp: LoadOp,
                                     storeOp: StoreOp, samples: nat, stencilLoadOp: LoadOp,
                                     stencilStoreOp: StoreOp, flags: nat)
    ensures var d := MakeAttachmentDescription(format, initialLayout, finalLayout, loadOp, storeOp, samples,
                                               stencilLoadOp, stencilStoreOp, flags);
      Resolved(d) &&
      MakeAttachmentDescription(d.format, d.initialLayout, d.finalLayout, d.loadOp, d.storeOp, d.samples,
                                d.stencilLoadOp, d.stencilStoreOp, d.flags) == d
  {
  }

  // ---- Descriptor writes -------------------------------------------------

  datatype DescriptorImageInfo = DescriptorImageInfo(sampler: nat, imageView: nat, imageLayout: nat)
  datatype DescriptorBufferInfo = DescriptorBufferInfo(buffer: nat, offset: nat, range: nat)

  /** The three kinds of payload a descriptor write can carry. */
  datatype DescriptorInfos =
    | ImageInfos(images: seq<DescriptorImageInfo>)
    | BufferInfos(buffers: seq<DescriptorBufferInfo>)
    | TexelBufferViews(views: seq<nat>)
  {
    function Count(): nat
    {
      match this
      case ImageInfos(i) => |i|
      case BufferInfos(b) => |b|
      case TexelBufferViews(v) => |v|
    }
  }

  datatype WriteDescriptorSet = WriteDescriptorSet(
    dstSet: nat, dstBinding: nat, dstArrayElement: nat, descriptorCount: nat, descriptorType: nat,
    imageInfo: Option<seq<DescriptorImageInfo>>, bufferInfo: Option<seq<DescriptorBufferInfo>>,
    texelBufferView: Option<seq<nat>>)

  function PointerCount(w: WriteDescriptorSet): nat
  {
    (if w.imageInfo.Some? then 1 else 0) + (if w.bufferInfo.Some? then 1 else 0) +
    (if w.texelBufferView.Some? then 1 else 0)
  }

  /**
   * The three `WriteDescriptorSet` constructors, one per payload kind (the
   * overloads without an array element pass 0): the count is the payload's
   * size and only the payload's own pointer is set.
   */
  function MakeWriteDescriptorSet(dstSet: nat, dstBinding: nat, dstArrayElement: nat, descriptorType: nat,
                                  infos: DescriptorInfos): (w: WriteDescriptorSet)
    ensures w.descriptorCount == infos.Count()
    ensures PointerCount(w) == 1
    ensures infos.ImageInfos? ==> w.imageInfo == Some(infos.images)
    ensures infos.BufferInfos? ==> w.bufferInfo == Some(infos.buffers)
    ensures infos.TexelBufferViews? ==> w.texelBufferView == Some(infos.views)
    ensures w.dstSet == dstSet && w.dstBinding == dstBinding && w.dstArrayElement == dstArrayElement
    ensures w.descriptorType == descriptorType
  {
    match infos
    case ImageInfos(images) =>
      WriteDescriptorSet(dstSet, dstBinding, dstArrayElement, |images|, descriptorType, Some(images), None, None)
    case BufferInfos(buffers) =>
      WriteDescriptorSet(dstSet, dstBinding, dstArrayElement, |buffers|, descriptorType, None, Some(buffers), None)
    case TexelBufferViews(views) =>
      WriteDescriptorSet(dstSet, dstBinding, dstArrayElement, |views|, descriptorType, None, None, Some(views))
  }

  /** The payload can be read back from the write, whatever its kind. */
  function WrittenInfos(w: WriteDescriptorSet): DescriptorInfos
    requires PointerCount(w) == 1
  {
    if w.imageInfo.Some? then ImageInfos(w.imageInfo.value)
    else if w.bufferInfo.Some? then BufferInfos(w.bufferInfo.value)
    else TexelBufferViews(w.texelBufferView.value)
  }

  lemma WriteDescriptorSetRoundTrip(dstSet: nat, dstBinding: nat, dstArrayElement: nat, descriptorType: nat,
                                    infos: DescriptorInfos)
    ensures WrittenInfos(MakeWriteDescriptorSet(dstSet, dstBinding, dstArrayElement, descriptorType, infos)) == infos
  {
  }

  // ---- Device creation ---------------------------------------------------

  datatype DeviceQueueCreateInfo = DeviceQueueCreateInfo(queueFamilyIndex: nat, queueCount: nat)

  datatype DeviceCreateInfo = DeviceCreateInfo(
    queueCreateInfoCount: nat, queueCreateInfos: seq<DeviceQueueCreateInfo>,
    enabledLayerCount: nat, enabledLayerNames: seq<string>,
    enabledExtensionCount: nat, enabledExtensionNames: seq<string>,
    enabledFeatures: Option<seq<bool>>)

  /** The `DeviceCreateInfo` constructor: each count is its list's size (features may be absent). */
  function MakeDeviceCreateInfo(queues: seq<DeviceQueueCreateInfo>, layers: seq<string>, exts: seq<string>,
                                features: Option<seq<bool>>): (info: DeviceCreateInfo)
    ensures info.queueCreateInfoCount == |info.queueCreateInfos| && info.queueCreateInfos == queues
    ensures info.enabledLayerCount == |info.enabledLayerNames| && info.enabledLayerNames == layers
    ensures info.enabledExtensionCount == |info.enabledExtensionNames| && info.enabledExtensionNames == exts
    ensures info.enabledFeatures == features
  {
    DeviceCreateInfo(|queues|, queues, |layers|, layers, |exts|, exts, features)
  }

  // ---- Render passes -----------------------------------------------------

  datatype AttachmentReference = AttachmentReference(attachment: u32, layout: nat)

  const ATTACHMENT_UNUSED: u32 := 0xFFFF_FFFF

  /** `sizeof(VkAttachmentReference)`: a 32-bit index and a 32-bit layout. */
  const RefSize: nat := 8

  /**
   * A subpass's pointer to attachment references: null, a fake pointer
   * whose address is `(k + 1) * sizeof` for the reference at index `k`
   * (the references are not stored yet, or may still move), or a real
   * pointer to `attrefs[index]`.
   */
  datatype RefPtr = Null | Temp(address: nat) | Real(index: nat)

  /** `MakeTempPtr` when `attrefs` holds `k` references. */
  function FakeAddress(k: nat): (a: nat)
    ensures a >= RefSize && a % RefSize == 0
  {
    (k + 1) * RefSize
  }

  /** `MakeRealPtr`: the fake address, rebased onto the start of `attrefs`. */
  function RealPointer(address: nat): RefPtr
    requires address >= RefSize
  {
    Real(address / RefSize - 1)
  }

  /** Rebasing a fake pointer lands on the reference it was made for. */
  lemma RealPointerOfFakeAddress(k: nat)
    ensures RealPointer(FakeAddress(k)) == Real(k)
  {
  }

  /** The index a non-null pointer designates. */
  function Slot(p: RefPtr): nat
    requires !p.Null? && WellFormedPtr(p)
  {
    match p
    case Temp(a) => a / RefSize - 1
    case Real(i) => i
  }

  /** A pointer made by this builder: fake addresses are always `(k + 1) * sizeof`. */
  predicate WellFormedPtr(p: RefPtr)
  {
    p.Temp? ==> p.address >= RefSize && p.address % RefSize == 0
  }

  datatype SubpassDescription = SubpassDescription(
    inputCount: nat, input: RefPtr, colorCount: nat, color: RefPtr, resolve: RefPtr, depth: RefPtr)

  /** What one `addSubpass` call was given. */
  datatype SubpassRequest = SubpassRequest(
    colors: seq<AttachmentReference>, depth: seq<AttachmentReference>,
    resolves: seq<AttachmentReference>, inputs: seq<AttachmentReference>)

  /** The depth reference stored for a depth attachment: none when it is unused. */
  function DepthRefs(depthAttachment: u32, depthLayout: nat): (r: seq<AttachmentReference>)
    ensures |r| <= 1 && (r == [] <==> depthAttachment == ATTACHMENT_UNUSED)
  {
    if depthAttachment != ATTACHMENT_UNUSED then [AttachmentReference(depthAttachment, depthLayout)] else []
  }

  /** `p` designates exactly `group` in `attrefs`, and is null exactly when the group is empty. */
  ghost predicate Designates(p: RefPtr, group: seq<AttachmentReference>, attrefs: seq<AttachmentReference>)
  {
    WellFormedPtr(p) &&
    (p.Null? <==> group == []) &&
    (!p.Null? ==> Slot(p) + |group| <= |attrefs| && forall j :: 0 <= j < |group| ==> attrefs[Slot(p) + j] == group[j])
  }

  ghost predicate Matches(s: SubpassDescription, r: SubpassRequest, attrefs: seq<AttachmentReference>)
  {
    s.inputCount == |r.inputs| && s.colorCount == |r.colors| &&
    Designates(s.input, r.inputs, attrefs) && Designates(s.color, r.colors, attrefs) &&
    Designates(s.resolve, r.resolves, attrefs) && Designates(s.depth, r.depth, attrefs)
  }

  /** A pointer still fake is rebased when it lies at or below `invalid`, the next fake address. */
  function BakePtr(p: RefPtr, invalid: nat): (q: RefPtr)
    requires WellFormedPtr(p)
    ensures WellFormedPtr(q)
    ensures p.Temp? && p.address <= invalid ==> q.Real?
    ensures !p.Null? ==> !q.Null? && Slot(q) == Slot(p)
    ensures p.Null? ==> q.Null?
  {
    if p.Temp? && p.address <= invalid then RealPointer(p.address) else p
  }

  predicate WellFormedSubpass(s: SubpassDescription)
  {
    WellFormedPtr(s.input) && WellFormedPtr(s.color) && WellFormedPtr(s.resolve) && WellFormedPtr(s.depth)
  }

  /** Two pointers that are both null, or both name the same slot. */
  predicate SameTarget(p: RefPtr, q: RefPtr)
    requires WellFormedPtr(p) && WellFormedPtr(q)
  {
    (p.Null? <==> q.Null?) && (!p.Null? ==> Slot(p) == Slot(q))
  }

  /** Rebases the four reference pointers of a subpass; its counts are kept. */
  function BakeSubpass(s: SubpassDescription, invalid: nat): (b: SubpassDescription)
    requires WellFormedSubpass(s)
    ensures WellFormedSubpass(b)
    ensures b.inputCount == s.inputCount && b.colorCount == s.colorCount
    ensures SameTarget(s.input, b.input) && SameTarget(s.color, b.color)
    ensures SameTarget(s.resolve, b.resolve) && SameTarget(s.depth, b.depth)
  {
    s.(input := BakePtr(s.input, invalid), color := BakePtr(s.color, invalid),
       resolve := BakePtr(s.resolve, invalid), depth := BakePtr(s.depth, invalid))
  }

  predicate NoFakePointers(s: SubpassDescription)
  {
    !s.input.Temp? && !s.color.Temp? && !s.resolve.Temp? && !s.depth.Temp?
  }

  /** Rebasing keeps every pointer on its own group, and leaves no fake pointer behind. */
  lemma BakeSubpassKeepsGroups(s: SubpassDescription, r: SubpassRequest, attrefs: seq<AttachmentReference>)
    requires Matches(s, r, attrefs)
    ensures Matches(BakeSubpass(s, FakeAddress(|attrefs|)), r, attrefs)
    ensures NoFakePointers(BakeSubpass(s, FakeAddress(|attrefs|)))
  {
    var invalid := FakeAddress(|attrefs|);
    forall p, g | p in [s.input, s.color, s.resolve, s.depth] && Designates(p, g, attrefs) && p.Temp?
      ensures p.address <= invalid
    {
      assert Slot(p) < |attrefs| + 1;
    }
    assert Designates(s.input, r.inputs, attrefs);
    assert Designates(s.color, r.colors, attrefs);
    assert Designates(s.resolve, r.resolves, attrefs);
    assert Designates(s.depth, r.depth, attrefs);
  }

  /** Baking again changes nothing: real pointers are never rebased twice. */
  lemma BakeSubpassIdempotent(s: SubpassDescription, invalid: nat)
    requires WellFormedSubpass(s) && NoFakePointers(s)
    ensures BakeSubpass(s, invalid) == s
  {
  }

  /** Appending references keeps every existing pointer on its group. */
  lemma DesignatesAfterAppend(p: RefPtr, group: seq<AttachmentReference>, attrefs: seq<AttachmentReference>,
                              more: seq<AttachmentReference>)
    requires Designates(p, group, attrefs)
    ensures Designates(p, group, attrefs + more)
  {

  }

  /** The pointer `addSubpass` makes for a group stored at index `k`: fake, or null for an empty group. */
  function PtrAt(group: seq<AttachmentReference>, k: nat): RefPtr
  {
    if group == [] then Null else Temp(FakeAddress(k))
  }

  /** The subpass `addSubpass` appends when `k` references were already stored. */
  function AddedSubpass(k: nat, colors: seq<AttachmentReference>, dr: seq<AttachmentReference>,
                        resolves: seq<AttachmentReference>, inputs: seq<AttachmentReference>): SubpassDescription
  {
    SubpassDescription(|inputs|, PtrAt(inputs, k + |colors| + |dr| + |resolves|), |colors|,
                       PtrAt(colors, k), PtrAt(resolves, k + |colors| + |dr|), PtrAt(dr, k + |colors|))
  }

  /** Every subpass designates the groups of its request. */
  ghost predicate AllMatch(subs: seq<SubpassDescription>, reqs: seq<SubpassRequest>, attrefs: seq<AttachmentReference>)
  {
    |subs| == |reqs| && forall i :: 0 <= i < |subs| ==> Matches(subs[i], reqs[i], attrefs)
  }

  /** A group found at index `k` is designated by the pointer made for it there. */
  lemma PtrAtDesignates(attrefs: seq<AttachmentReference>, k: nat, group: seq<AttachmentReference>)
    requires k + |group| <= |attrefs| && forall j :: 0 <= j < |group| ==> attrefs[k + j] == group[j]
    ensures Designates(PtrAt(group, k), group, attrefs)
  {
    if group != [] {
      RealPointerOfFakeAddress(k);
      assert Slot(PtrAt(group, k)) == k;
    }
  }

  /** A subpass matches its request once each of its four pointers designates its group. */
  lemma MatchesOfDesignates(s: SubpassDescription, r: SubpassRequest, attrefs: seq<AttachmentReference>)
    requires s.inputCount == |r.inputs| && s.colorCount == |r.colors|
    requires Designates(s.input, r.inputs, attrefs) && Designates(s.color, r.colors, attrefs)
    requires Designates(s.resolve, r.resolves, attrefs) && Designates(s.depth, r.depth, attrefs)
    ensures Matches(s, r, attrefs)
  {
  }

  /** A group just appended after `pre` is designated by the pointer made for it. */
  lemma AppendedGroupDesignated(pre: seq<AttachmentReference>, group: seq<AttachmentReference>)
    ensures Designates(PtrAt(group, |pre|), group, pre + group)
  {
    PtrAtDesignates(pre + group, |pre|, group);
  }

  /** The subpass `addSubpass` appends designates the four groups it stored. */
  lemma NewSubpassMatches(a0: seq<AttachmentReference>, colors: seq<AttachmentReference>, dr: seq<AttachmentReference>,
                          resolves: seq<AttachmentReference>, inputs: seq<AttachmentReference>)
    ensures Matches(AddedSubpass(|a0|, colors, dr, resolves, inputs), SubpassRequest(colors, dr, resolves, inputs),
                    a0 + colors + dr + resolves + inputs)
  {
    var a1 := a0 + colors;
    var a2 := a1 + dr;
    var a3 := a2 + resolves;
    var a4 := a3 + inputs;
    AppendedGroupDesignated(a0, colors);
    DesignatesAfterAppend(PtrAt(colors, |a0|), colors, a1, dr);
    DesignatesAfterAppend(PtrAt(colors, |a0|), colors, a2, resolves);
    DesignatesAfterAppend(PtrAt(colors, |a0|), colors, a3, inputs);
    AppendedGroupDesignated(a1, dr);
    DesignatesAfterAppend(PtrAt(dr, |a1|), dr, a2, resolves);
    DesignatesAfterAppend(PtrAt(dr, |a1|), dr, a3, inputs);
    AppendedGroupDesignated(a2, resolves);
    DesignatesAfterAppend(PtrAt(resolves, |a2|), resolves, a3, inputs);
    AppendedGroupDesignated(a3, inputs);
    var sub := AddedSubpass(|a0|, colors, dr, resolves, inputs);
    assert sub.color == PtrAt(colors, |a0|) && sub.depth == PtrAt(dr, |a1|);
    assert sub.resolve == PtrAt(resolves, |a2|) && sub.input == PtrAt(inputs, |a3|);
    MatchesOfDesignates(sub, SubpassRequest(colors, dr, resolves, inputs), a4);
  }

  /** Replacing one subpass by another on the same groups keeps them all matched. */
  lemma AllMatchUpdate(subs: seq<SubpassDescription>, reqs: seq<SubpassRequest>, attrefs: seq<AttachmentReference>,
                       i: nat, s: SubpassDescription)
    requires AllMatch(subs, reqs, attrefs) && i < |subs|
    requires Matches(s, reqs[i], attrefs)
    ensures AllMatch(subs[i := s], reqs, attrefs)
  {
  }

  /** Appending references keeps every existing subpass on its groups. */
  lemma MatchesAfterAppend(subpasses: seq<SubpassDescription>, requests: seq<SubpassRequest>,
                           attrefs: seq<AttachmentReference>, more: seq<AttachmentReference>)
    requires AllMatch(subpasses, requests, attrefs)
    ensures AllMatch(subpasses, requests, attrefs + more)
  {
    forall i | 0 <= i < |subpasses|
      ensures Matches(subpasses[i], requests[i], attrefs + more)
    {
      var s, r := subpasses[i], requests[i];
      DesignatesAfterAppend(s.input, r.inputs, attrefs, more);
      DesignatesAfterAppend(s.color, r.colors, attrefs, more);
      DesignatesAfterAppend(s.resolve, r.resolves, attrefs, more);
      DesignatesAfterAppend(s.depth, r.depth, attrefs, more);
    }
  }

  /** The subpass list after `addSubpass` still designates every group, old and new. */
  lemma AppendedSubpassMatches(subs: seq<SubpassDescription>, reqs: seq<SubpassRequest>, a0: seq<AttachmentReference>,
                               colors: seq<AttachmentReference>, dr: seq<AttachmentReference>,
                               resolves: seq<AttachmentReference>, inputs: seq<AttachmentReference>)
    requires AllMatch(subs, reqs, a0)
    ensures AllMatch(subs + [AddedSubpass(|a0|, colors, dr, resolves, inputs)],
                     reqs + [SubpassRequest(colors, dr, resolves, inputs)], a0 + colors + dr + resolves + inputs)
  {
    var attrefs := a0 + colors + dr + resolves + inputs;
    var more := colors + dr + resolves + inputs;
    assert a0 + more == attrefs;
    MatchesAfterAppend(subs, reqs, a0, more);
    NewSubpassMatches(a0, colors, dr, resolves, inputs);
    var subs', reqs' := subs + [AddedSubpass(|a0|, colors, dr, resolves, inputs)],
                        reqs + [SubpassRequest(colors, dr, resolves, inputs)];
    forall i | 0 <= i < |subs'|
      ensures Matches(subs'[i], reqs'[i], attrefs)
    {
      if i < |subs| {
        assert subs'[i] == subs[i] && reqs'[i] == reqs[i];
      }
    }
  }

  datatype SubpassDependency = SubpassDependency(srcSubpass: u32, dstSubpass: u32)

  /** The counts a baked render pass passes to the driver. */
  datatype RenderPassCreateInfo = RenderPassCreateInfo(attachmentCount: nat, subpassCount: nat, dependencyCount: nat)

  class RenderPassCreator {
    var attachments: seq<AttachmentDescription>
    var subpasses: seq<SubpassDescription>
    var dependencies: seq<SubpassDependency>
    var attrefs: seq<AttachmentReference>
    /** The lists each `addSubpass` call was given, in order. */
    ghost var requests: seq<SubpassRequest>

    /** Each subpass's pointers designate exactly the lists it was given. */
    ghost predicate Valid()
      reads this
    {
      AllMatch(subpasses, requests, attrefs)
    }

    constructor()
      ensures Valid()
      ensures attachments == [] && subpasses == [] && dependencies == [] && attrefs == []
    {
      attachments, subpasses, dependencies, attrefs := [], [], [], [];
      requests := [];
    }

    /** `MakeTempPtr`: the fake address of the next reference to be stored. */
    function MakeTempPtr(): (p: RefPtr)
      reads this
      ensures p.Temp? && WellFormedPtr(p) && Slot(p) == |attrefs|
    {
      Temp(FakeAddress(|attrefs|))
    }

    /** Stores a non-empty group after the references already held, returning a fake pointer to its first element. */
    method AppendRefs(group: seq<AttachmentReference>) returns (p: RefPtr)
      modifies this`attrefs
      ensures attrefs == old(attrefs) + group
      ensures p == PtrAt(group, |old(attrefs)|)
    {
      p := Null;
      if group != [] {
        p := MakeTempPtr();
        attrefs := attrefs + group;
      }
    }

    /**
     * `addSubpass`: stores the colour, depth, resolve and input references,
     * in that order, each non-empty group pointed at by a fake pointer to
     * its first element, and appends one subpass.
     */
    method AddSubpass(colors: seq<AttachmentReference>, depthAttachment: u32, depthLayout: nat,
                      resolves: seq<AttachmentReference>, inputs: seq<AttachmentReference>)
      requires Valid()
      modifies this`attrefs, this`subpasses, this`requests
      ensures Valid()
      ensures attrefs == old(attrefs) + colors + DepthRefs(depthAttachment, depthLayout) + resolves + inputs
      ensures |subpasses| == |old(subpasses)| + 1 && subpasses[..|old(subpasses)|] == old(subpasses)
      ensures requests == old(requests) + [SubpassRequest(colors, DepthRefs(depthAttachment, depthLayout), resolves, inputs)]
      ensures var s := subpasses[|subpasses| - 1];
        s.colorCount == |colors| && s.inputCount == |inputs| && !s.input.Real? && !s.color.Real? &&
        !s.resolve.Real? && !s.depth.Real?
    {
      var a0 := attrefs;
      var color := AppendRefs(colors);
      var dr := DepthRefs(depthAttachment, depthLayout);
      var depth := AppendRefs(dr);
      var resolve := AppendRefs(resolves);
      var input := AppendRefs(inputs);
      var sub := SubpassDescription(|inputs|, input, |colors|, color, resolve, depth);
      assert sub == AddedSubpass(|a0|, colors, dr, resolves, inputs);
      AppendedSubpassMatches(subpasses, requests, a0, colors, dr, resolves, inputs);
      subpasses := subpasses + [sub];
      requests := requests + [SubpassRequest(colors, dr, resolves, inputs)];
    }

    /**
     * `bake`: rebases every fake pointer onto `attrefs` and fills in the
     * counts. Afterwards no fake pointer is left, and each pointer is the
     * first element of its own group.
     */
    method Bake() returns (info: RenderPassCreateInfo)
      requires Valid()
      modifies this`subpasses
      ensures Valid()
      ensures |subpasses| == |old(subpasses)|
      ensures forall i :: 0 <= i < |subpasses| ==> subpasses[i] == BakeSubpass(old(subpasses)[i], FakeAddress(|attrefs|))
      ensures forall i :: 0 <= i < |subpasses| ==> NoFakePointers(subpasses[i])
      ensures info == RenderPassCreateInfo(|attachments|, |subpasses|, |dependencies|)
    {
      var invalid := MakeTempPtr();
      var i := 0;
      while i < |subpasses|
        invariant 0 <= i <= |subpasses| == |old(subpasses)| == |requests|
        invariant forall j :: 0 <= j < i ==> subpasses[j] == BakeSubpass(old(subpasses)[j], invalid.address)
        invariant forall j :: i <= j < |subpasses| ==> subpasses[j] == old(subpasses)[j]
        invariant AllMatch(subpasses, requests, attrefs)
        invariant forall j :: 0 <= j < i ==> NoFakePointers(subpasses[j])
      {
        BakeSubpassKeepsGroups(subpasses[i], requests[i], attrefs);
        AllMatchUpdate(subpasses, requests, attrefs, i, BakeSubpass(subpasses[i], invalid.address));
        subpasses := subpasses[i := BakeSubpass(subpasses[i], invalid.address)];
        i := i + 1;
      }
      info := RenderPassCreateInfo(|attachments|, |subpasses|, |dependencies|);
    }
  }
}
