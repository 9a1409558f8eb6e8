/** Framebuffers (src/vulkan/framebuffers.rs): one framebuffer per swapchain
    image view, built in lockstep with the views. A framebuffer is named by the
    create info it was built from; `failAt` names the view whose
    vkCreateFramebuffer call fails, if any. */
module Framebuffers {
  import opened VkTypes

  datatype Framebuffer = Framebuffer(
    renderPass: RenderPassHandle,
    attachments: seq<ImageView>,
    width: U32,
    height: U32,
    layers: nat)

  /** The framebuffer for view i matches it: the one attachment is that view,
      the size is the swapchain extent, one layer, the shared render pass. */
  predicate BuiltFor(fb: Framebuffer, renderPass: RenderPassHandle, view: ImageView, extent: Extent2D)
  {
    fb == Framebuffer(renderPass, [view], extent.width, extent.height, 1)
  }

  /** VulkanFramebuffers::new: a loop pushing one framebuffer per view. */
  method New(renderPass: RenderPassHandle, views: seq<ImageView>, extent: Extent2D, failAt: Option<nat>)
    returns (r: Result<seq<Framebuffer>, nat>)
    ensures r.Err? <==> failAt.Some? && failAt.value < |views|
    ensures r.Err? ==> r.error == failAt.value
    ensures r.Ok? ==> |r.value| == |views|
    ensures r.Ok? ==> forall i :: 0 <= i < |views| ==> BuiltFor(r.value[i], renderPass, views[i], extent)
  {
    var framebuffers: seq<Framebuffer> := [];
    var i := 0;
    while i < |views|
      invariant 0 <= i <= |views|
      invariant |framebuffers| == i
      invariant forall k :: 0 <= k < i ==> BuiltFor(framebuffers[k], renderPass, views[k], extent)
      invariant failAt.Some? ==> failAt.value >= i
    {
      if failAt == Some(i) {
        return Err(i);
      }
      framebuffers := framebuffers + [Framebuffer(renderPass, [views[i]], extent.width, extent.height, 1)];
      i := i + 1;
    }
    r := Ok(framebuffers);
  }

  /** All framebuffers built from a list of views share one render pass. */
  lemma SharedRenderPass(fbs: seq<Framebuffer>, renderPass: RenderPassHandle, views: seq<ImageView>, extent: Extent2D)
    requires |fbs| == |views|
    requires forall i :: 0 <= i < |views| ==> BuiltFor(fbs[i], renderPass, views[i], extent)
    ensures forall i, j :: 0 <= i < |fbs| && 0 <= j < |fbs| ==> fbs[i].renderPass == fbs[j].renderPass
  {
  }
}
