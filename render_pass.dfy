/** The single-attachment render pass (src/vulkan/render_pass.rs): a constant
    descriptor built from the swapchain's format, and the create call whose
    outcome is an input. Field names follow VkRenderPassCreateInfo. */
module RenderPass {
  import opened VkTypes

  datatype LoadOp = LoadOpLoad | LoadOpClear | LoadOpDontCare
  datatype StoreOp = StoreOpStore | StoreOpDontCare
  datatype ImageLayout = LayoutUndefined | LayoutColorAttachmentOptimal | LayoutPresentSrc

  datatype AttachmentDescription = AttachmentDescription(
    format: Format,
    samples: nat,
    loadOp: LoadOp,
    storeOp: StoreOp,
    stencilLoadOp: LoadOp,
    stencilStoreOp: StoreOp,
    initialLayout: ImageLayout,
    finalLayout: ImageLayout)

  datatype AttachmentReference = AttachmentReference(attachment: nat, layout: ImageLayout)

  datatype SubpassDescription = SubpassDescription(
    bindPoint: BindPoint,
    colorAttachments: seq<AttachmentReference>)

  /** VK_SUBPASS_EXTERNAL or the index of a subpass of this render pass. */
  datatype SubpassRef = SubpassExternal | SubpassIndex(index: nat)

  datatype Access = ColorAttachmentRead | ColorAttachmentWrite

  datatype SubpassDependency = SubpassDependency(
    srcSubpass: SubpassRef,
    dstSubpass: SubpassRef,
    srcStageMask: set<PipelineStage>,
    dstStageMask: set<PipelineStage>,
    srcAccessMask: set<Access>,
    dstAccessMask: set<Access>)

  datatype RenderPassDescription = RenderPassDescription(
    attachments: seq<AttachmentDescription>,
    subpasses: seq<SubpassDescription>,
    dependencies: seq<SubpassDependency>)

  /** The descriptor VulkanRenderPass::new submits for a swapchain format. */
  function Describe(format: Format): (d: RenderPassDescription)
    ensures |d.attachments| == 1 && d.attachments[0].format == format
    ensures |d.subpasses| == 1 && |d.dependencies| == 1
  {
    var colorAttachment := AttachmentDescription(
      format, 1, LoadOpClear, StoreOpStore, LoadOpDontCare, StoreOpDontCare,
      LayoutUndefined, LayoutPresentSrc);
    var colorRef := AttachmentReference(0, LayoutColorAttachmentOptimal);
    var subpass := SubpassDescription(Graphics, [colorRef]);
    var dependency := SubpassDependency(
      SubpassExternal, SubpassIndex(0),
      {ColorAttachmentOutput}, {ColorAttachmentOutput},
      {}, {ColorAttachmentWrite});
    RenderPassDescription([colorAttachment], [subpass], [dependency])
  }

  /** Structural validity rules of VkRenderPassCreateInfo that the descriptor
      must meet: every colour reference names an existing attachment, every
      dependency names existing subpasses, and no dependency is external on
      both sides. */
  predicate WellFormed(d: RenderPassDescription)
  {
    (forall s, k :: 0 <= s < |d.subpasses| && 0 <= k < |d.subpasses[s].colorAttachments| ==>
       d.subpasses[s].colorAttachments[k].attachment < |d.attachments|) &&
    (forall k :: 0 <= k < |d.dependencies| ==>
       (d.dependencies[k].srcSubpass.SubpassIndex? ==> d.dependencies[k].srcSubpass.index < |d.subpasses|) &&
       (d.dependencies[k].dstSubpass.SubpassIndex? ==> d.dependencies[k].dstSubpass.index < |d.subpasses|) &&
       !(d.dependencies[k].srcSubpass.SubpassExternal? && d.dependencies[k].dstSubpass.SubpassExternal?))
  }

  /** Every attachment is cleared when the pass begins, stored when it ends,
      and left in the layout the presentation engine requires. */
  predicate ClearsStoresAndPresents(d: RenderPassDescription)
  {
    forall a :: 0 <= a < |d.attachments| ==>
      d.attachments[a].loadOp == LoadOpClear &&
      d.attachments[a].storeOp == StoreOpStore &&
      d.attachments[a].finalLayout == LayoutPresentSrc
  }

  /** The first colour write of the pass waits for the colour-output stage of
      whatever came before it outside the pass (the acquire). */
  predicate GuardsFirstColorWrite(d: RenderPassDescription)
  {
    exists k :: 0 <= k < |d.dependencies| &&
      d.dependencies[k].srcSubpass == SubpassExternal &&
      d.dependencies[k].dstSubpass == SubpassIndex(0) &&
      ColorAttachmentOutput in d.dependencies[k].srcStageMask &&
      ColorAttachmentOutput in d.dependencies[k].dstStageMask &&
      ColorAttachmentWrite in d.dependencies[k].dstAccessMask
  }

  /** The descriptor has one single-sampled colour attachment in the
      swapchain's format, one graphics subpass that writes it in the
      colour-attachment layout, and one dependency from outside the pass that
      waits on colour output with no source access and guards colour writes;
      the stencil aspect is neither loaded nor stored; it is well formed, clears,
      stores and ends presentable, and guards the first colour write. */
  lemma DescribeProperties(format: Format)
    ensures var d := Describe(format);
      |d.attachments| == 1 && |d.subpasses| == 1 && |d.dependencies| == 1 &&
      d.attachments[0].format == format && d.attachments[0].samples == 1 &&
      d.attachments[0].initialLayout == LayoutUndefined &&
      d.subpasses[0].bindPoint == Graphics &&
      d.subpasses[0].colorAttachments == [AttachmentReference(0, LayoutColorAttachmentOptimal)] &&
      d.attachments[0].stencilLoadOp == LoadOpDontCare && d.attachments[0].stencilStoreOp == StoreOpDontCare &&
      d.dependencies[0].srcStageMask == {ColorAttachmentOutput} &&
      d.dependencies[0].dstStageMask == {ColorAttachmentOutput} &&
      d.dependencies[0].srcAccessMask == {} &&
      d.dependencies[0].dstAccessMask == {ColorAttachmentWrite} &&
      WellFormed(d) && ClearsStoresAndPresents(d) && GuardsFirstColorWrite(d)
  {
    var d := Describe(format);
    assert d.dependencies[0].srcSubpass == SubpassExternal;
  }

  datatype VulkanRenderPass = VulkanRenderPass(handle: RenderPassHandle, description: RenderPassDescription)

  /** VulkanRenderPass::new; `created` is the driver's answer, None when
      vkCreateRenderPass fails. */
  function New(format: Format, created: Option<RenderPassHandle>): (r: Result<VulkanRenderPass, string>)
    ensures r.Ok? <==> created.Some?
    ensures r.Ok? ==> r.value.handle == created.value && r.value.description == Describe(format)
  {
    match created
    case None => Err("render pass creation failed")
    case Some(h) => Ok(VulkanRenderPass(h, Describe(format)))
  }
}
