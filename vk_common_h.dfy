// The Vulkan test header's helpers: the vulkan.hpp render pass builder,
// the result checker that reports a failed call when it goes out of
// scope, and the allocated buffer's mapping.
module VkCommonHeader {
  import opened Common
  import opened VkHelpers

  /** The result codes the helpers distinguish; every other code is `ErrorOther`. */
  datatype VkResult = Success | NotReady | Suboptimal | ErrorOutOfDate | ErrorOther(code: int)

  // ---- RenderPassCreator -------------------------------------------------

  /**
   * A subpass pointer. The builder keeps its colour lists and depth
   * references in linked lists, whose elements never move, so a pointer
   * is the index of the element it was taken from.
   */
  datatype ListPtr = NoList | ColorList(index: nat) | DepthRef(index: nat)

  /** The fields `addSub` fills in: the colour count and pointer, and the depth pointer. */
  datatype Subpass = Subpass(colorCount: nat, color: ListPtr, depth: ListPtr)

  /**
   * The depth pointer of subpass `i` as the builder writes it: the stored
   * reference when the depth attachment IS unused, and null otherwise.
   */
  function SubpassDepthPtrAsWritten(depthAttachment: u32, i: nat): (p: ListPtr)
    ensures p != NoList <==> depthAttachment == ATTACHMENT_UNUSED
    ensures p != NoList ==> p == DepthRef(i)
  {
    if depthAttachment == ATTACHMENT_UNUSED then DepthRef(i) else NoList
  }

  /** The depth pointer as intended: the stored reference exactly when depth is used. */
  function SubpassDepthPtr(depthAttachment: u32, i: nat): (p: ListPtr)
    ensures p != NoList <==> depthAttachment != ATTACHMENT_UNUSED
    ensures p != NoList ==> p == DepthRef(i)
  {
    if depthAttachment != ATTACHMENT_UNUSED then DepthRef(i) else NoList
  }

  /**
   * The written pointer is the intended one inverted: a subpass given a
   * depth attachment gets none, and one without depth points at a
   * reference to `VK_ATTACHMENT_UNUSED`.
   */
  lemma DepthPtrInverted(depthAttachment: u32, i: nat)
    ensures SubpassDepthPtrAsWritten(depthAttachment, i) == NoList <==> SubpassDepthPtr(depthAttachment, i) != NoList
    ensures SubpassDepthPtrAsWritten(0, i) == NoList && SubpassDepthPtr(0, i) == DepthRef(i)
    ensures SubpassDepthPtrAsWritten(ATTACHMENT_UNUSED, i) == DepthRef(i) && SubpassDepthPtr(ATTACHMENT_UNUSED, i) == NoList
  {
  }

  /**
   * With the intended pointer, whatever a subpass's depth pointer
   * designates among the stored references is a used attachment.
   */
  lemma DepthPtrDesignatesUsedAttachment(depths: seq<AttachmentReference>, i: nat)
    requires i < |depths|
    ensures var p := SubpassDepthPtr(depths[i].attachment, i);
      p != NoList ==> p.DepthRef? && p.index < |depths| && depths[p.index].attachment != ATTACHMENT_UNUSED
  {
  }

  /**
   * The vulkan.hpp render pass builder. `addSub` stores a copy of the
   * colour list and a depth reference, for every subpass whether or not
   * it uses depth, and appends a subpass pointing at them.
   */
  class RenderPassCreator {
    var atts: seq<AttachmentDescription>
    var deps: seq<SubpassDependency>
    var subs: seq<Subpass>
    var colors: seq<seq<AttachmentReference>>
    var depths: seq<AttachmentReference>

    /** Subpass `i` points at colour list `i`, counts it, and has the depth pointer written for reference `i`. */
    ghost predicate Valid()
      reads this
    {
      |subs| == |colors| == |depths| &&
      forall i :: 0 <= i < |subs| ==>
        subs[i].colorCount == |colors[i]| && subs[i].color == ColorList(i) &&
        subs[i].depth == SubpassDepthPtrAsWritten(depths[i].attachment, i)
    }

    constructor()
      ensures Valid()
      ensures atts == [] && deps == [] && subs == [] && colors == [] && depths == []
    {
      atts, deps, subs, colors, depths := [], [], [], [], [];
    }

    /** `addSub(color, depthAttachment, depthLayout)`. */
    method AddSub(color: seq<AttachmentReference>, depthAttachment: u32, depthLayout: nat)
      requires Valid()
      modifies this`colors, this`depths, this`subs
      ensures Valid()
      ensures colors == old(colors) + [color]
      ensures depths == old(depths) + [AttachmentReference(depthAttachment, depthLayout)]
      ensures subs == old(subs) + [Subpass(|color|, ColorList(|old(subs)|),
                                           SubpassDepthPtrAsWritten(depthAttachment, |old(subs)|))]
    {
      colors := colors + [color];
      depths := depths + [AttachmentReference(depthAttachment, depthLayout)];
      subs := subs + [Subpass(|color|, ColorList(|colors| - 1), SubpassDepthPtrAsWritten(depthAttachment, |depths| - 1))];
    }

    /** `bake`: the counts passed to the driver are the sizes of the three lists. */
    method Bake() returns (info: RenderPassCreateInfo)
      ensures info.subpassCount == |subs| && info.dependencyCount == |deps| && info.attachmentCount == |atts|
    {
      info := RenderPassCreateInfo(|atts|, |subs|, |deps|);
    }
  }

  // ---- TemplatedResultChecker ---------------------------------------------

  /**
   * `ResultChecker(val) = call;`: remembers the result and stores the value
   * through the reference it was made with; when it is destroyed, a
   * result other than success is reported.
   */
  class ResultChecker<T> {
    var value: T
    var vkr: VkResult

    constructor(val: T)
      ensures value == val && vkr == Success
    {
      value := val;
      vkr := Success;
    }

    /** `operator=`: takes both the result and the value. */
    method Assign(result: VkResult, v: T)
      modifies this
      ensures vkr == result && value == v
    {
      vkr := result;
      value := v;
    }

    /** The destructor: whether the failure message is printed. */
    method Destroy() returns (reported: bool)
      ensures reported <==> vkr != Success
    {
      reported := vkr != Success;
    }
  }

  /**
   * One `ResultChecker(x) = call;` statement: `x` receives the call's
   * value whatever the result, and only a non-success result is reported.
   */
  method CheckResult<T>(x: T, result: VkResult, v: T) returns (x': T, reported: bool)
    ensures x' == v
    ensures reported <==> result != Success
  {
    var checker := new ResultChecker(x);
    checker.Assign(result, v);
    x' := checker.value;
    reported := checker.Destroy();
  }

  // ---- AllocatedBuffer ----------------------------------------------------

  /** `AllocatedBuffer::map`: the mapped address, or null when mapping fails. */
  function Map(vkr: VkResult, mapped: nat): (ptr: Option<nat>)
    ensures ptr.None? <==> vkr != Success
    ensures ptr.Some? ==> ptr.value == mapped
  {
    if vkr != Success then None else Some(mapped)
  }
}
