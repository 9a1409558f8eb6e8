/** VulkanRenderer (src/renderer/renderer.rs) over the objects it drives: the
    synchronisation objects, the command pool, and the queues. The device's
    answers for one draw_frame are a `Frames.FrameEnv`; the queue operations
    the device accepted are the log of a `DeviceQueues`. Every method here is
    proved to change the state exactly as `Frames.Step` says, so the
    properties proved about `Step` and `Run` are properties of draw_frame. */
module Renderer {
  import opened VkTypes
  import opened CommandPool
  import opened Frames
  import Sync
  import Framebuffers
  import Pipeline
  import LogicalDevice
  import Swapchain
  import RenderPass

  /** The graphics and present queues and the presentation engine, reduced
      to the operations they accepted, oldest first. */
  class DeviceQueues {
    var log: seq<QueueOp>

    constructor ()
      ensures log == []
    {
      log := [];
    }

    /** acquire_next_image without timeout and without fence: on success the
        semaphore will be signalled once the image is free, and the image
        index is handed back. */
    method AcquireNextImage(signal: Semaphore, answer: AcquireResult) returns (r: Result<nat, FrameError>)
      modifies this
      ensures answer.Acquired? ==> r == Ok(answer.imageIndex) && log == old(log) + [AcquireOp(signal)]
      ensures answer.AcquireFailed? ==> r == Err(ImageAcquireFailed) && log == old(log)
    {
      if answer.AcquireFailed? {
        return Err(ImageAcquireFailed);
      }
      log := log + [AcquireOp(signal)];
      r := Ok(answer.imageIndex);
    }

    /** queue_submit of one submission. */
    method QueueSubmit(op: QueueOp, ok: bool) returns (r: Result<(), FrameError>)
      modifies this
      ensures r.Ok? <==> ok
      ensures r.Err? ==> r.error == QueueSubmitFailed
      ensures log == if ok then old(log) + [op] else old(log)
    {
      if !ok {
        return Err(QueueSubmitFailed);
      }
      log := log + [op];
      r := Ok(());
    }

    /** queue_present of one presentation; a suboptimal answer counts as
        success. */
    method QueuePresent(op: QueueOp, answer: PresentResult) returns (r: Result<(), FrameError>)
      modifies this
      ensures r.Ok? <==> answer.Presented?
      ensures r.Err? ==> r.error == ImagePresentFailed
      ensures log == if answer.Presented? then old(log) + [op] else old(log)
    {
      if answer.PresentFailed? {
        return Err(ImagePresentFailed);
      }
      log := log + [op];
      r := Ok(());
    }
  }

  /** What record_command_buffer draws with. */
  function Targets(renderPass: RenderPass.VulkanRenderPass, pipeline: Pipeline.VulkanPipeline,
                   framebuffers: seq<Framebuffers.Framebuffer>, swapchain: Swapchain.VulkanSwapchain): RenderTargets
  {
    RenderTargets(renderPass.handle, pipeline.handle, framebuffers, swapchain.extent)
  }

  class VulkanRenderer {
    var currentFrame: nat
    const maxFramesInFlight: nat

    /** VulkanRenderer::new: slot 0 of three. */
    constructor ()
      ensures currentFrame == 0 && maxFramesInFlight == 3
    {
      currentFrame := 0;
      maxFramesInFlight := 3;
    }

    /** The abstract device state draw_frame works on. */
    function Snapshot(sync: Sync.VulkanSyncObjects, pool: VulkanCommandPool, queues: DeviceQueues): FrameState
      reads this, sync.signaled, pool.buffers, queues
    {
      FrameState(currentFrame, sync.signaled[..], pool.buffers[..], queues.log)
    }

    /** What stays fixed across draw_frame calls. */
    function Config(device: LogicalDevice.VulkanDevice, swapchain: Swapchain.VulkanSwapchain,
                    renderPass: RenderPass.VulkanRenderPass, framebuffers: seq<Framebuffers.Framebuffer>,
                    pipeline: Pipeline.VulkanPipeline): FrameConfig
    {
      FrameConfig(maxFramesInFlight, Targets(renderPass, pipeline, framebuffers, swapchain),
                  device.graphicsQueue, device.presentQueue)
    }

    /** record_command_buffer on buffer `bufferIndex`: reset, begin, begin
        the render pass over framebuffer `imageIndex`, bind the pipeline, set
        viewport and scissor to the whole extent, draw three vertices, end
        the pass, end. draw_frame passes the image index for both. */
    method RecordCommandBuffer(pool: VulkanCommandPool, renderPass: RenderPass.VulkanRenderPass,
                               framebuffers: seq<Framebuffers.Framebuffer>, swapchain: Swapchain.VulkanSwapchain,
                               pipeline: Pipeline.VulkanPipeline, bufferIndex: nat, imageIndex: nat, env: FrameEnv)
      returns (r: Result<(), FrameError>)
      requires bufferIndex < pool.buffers.Length
      requires env.resetBufferOk && env.beginOk ==> imageIndex < |framebuffers|
      modifies pool.buffers
      ensures var rec := RecordFrame(Targets(renderPass, pipeline, framebuffers, swapchain),
                                     old(pool.buffers[bufferIndex]), imageIndex, env);
        pool.buffers[..] == old(pool.buffers[..])[bufferIndex := rec.buffer] && r == rec.outcome
    {
      var t := Targets(renderPass, pipeline, framebuffers, swapchain);
      ghost var before := pool.buffers[..];
      ghost var rec := RecordFrame(t, before[bufferIndex], imageIndex, env);
      RecordFrameRecordsRenderCommands(t, before[bufferIndex], imageIndex, env);
      var res := pool.ResetCommandBuffer(bufferIndex, env.resetBufferOk);
      if res.Err? {
        return Err(BufferResetFailed);
      }
      res := pool.BeginCommandBuffer(bufferIndex, env.beginOk);
      if res.Err? {
        return Err(BufferBeginFailed);
      }
      ghost var begun := pool.buffers[bufferIndex];
      assert begun == CommandBuffer(Recording, []);
      RecordRenderPass(pool, renderPass, framebuffers, swapchain, pipeline, bufferIndex, imageIndex);
      AppendAllRecords(begun, RenderCommands(t, imageIndex));
      res := pool.EndCommandBuffer(bufferIndex, env.endOk);
      assert pool.buffers[..] == before[bufferIndex := rec.buffer];
      if res.Err? {
        return Err(BufferEndFailed);
      }
      r := Ok(());
    }

    /** The commands record_command_buffer records between begin and end,
        into a buffer that is recording. */
    method RecordRenderPass(pool: VulkanCommandPool, renderPass: RenderPass.VulkanRenderPass,
                            framebuffers: seq<Framebuffers.Framebuffer>, swapchain: Swapchain.VulkanSwapchain,
                            pipeline: Pipeline.VulkanPipeline, bufferIndex: nat, imageIndex: nat)
      requires bufferIndex < pool.buffers.Length && imageIndex < |framebuffers|
      requires pool.buffers[bufferIndex].state == Recording
      modifies pool.buffers
      ensures pool.buffers[..] == old(pool.buffers[..])[bufferIndex := CommandBuffer(Recording,
        old(pool.buffers[bufferIndex]).commands + RenderCommands(Targets(renderPass, pipeline, framebuffers, swapchain), imageIndex))]
    {
      var b := bufferIndex;
      ghost var before := pool.buffers[..];
      ghost var cs := RenderCommands(Targets(renderPass, pipeline, framebuffers, swapchain), imageIndex);
      pool.BeginRenderPass(b, renderPass.handle, framebuffers[imageIndex], swapchain.extent);
      pool.BindPipeline(b, pipeline);
      pool.Record(b, CmdSetViewport(0, Pipeline.FullExtentViewport(swapchain.extent)));
      pool.Record(b, CmdSetScissor(0, Rect2D(Offset2D(0, 0), swapchain.extent)));
      pool.Draw(b, 3, 1);
      assert pool.buffers[b] == CommandBuffer(Recording, before[b].commands + cs[..5]);
      pool.EndRenderPass(b);
      assert cs[..5] + [CmdEndRenderPass] == cs;
      assert pool.buffers[b] == CommandBuffer(Recording, before[b].commands + cs);
    }

    /** submit_command_buffer: one submission on the graphics queue that
        waits on the slot's image-available semaphore at the colour-output
        stage, runs buffer `bufferIndex`, and signals the slot's
        render-finished semaphore and fence. Once accepted the buffer is
        pending on that fence. */
    method SubmitCommandBuffer(device: LogicalDevice.VulkanDevice, pool: VulkanCommandPool, queues: DeviceQueues,
                               bufferIndex: nat, frameSync: Sync.FrameSyncObjects, ok: bool)
      returns (r: Result<(), FrameError>)
      requires bufferIndex < pool.buffers.Length
      modifies pool.buffers, queues
      ensures r.Ok? <==> ok
      ensures r.Err? ==> r.error == QueueSubmitFailed
      ensures queues.log == if ok then old(queues.log) + [SubmitOp(device.graphicsQueue, [frameSync.imageAvailable],
        [ColorAttachmentOutput], [CommandBufferId(bufferIndex)], [frameSync.renderFinished], frameSync.inFlightFence)]
        else old(queues.log)
      ensures pool.buffers[..] ==
        old(pool.buffers[..])[bufferIndex := Submit(old(pool.buffers[bufferIndex]), frameSync.inFlightFence.slot, ok)]
    {
      var commandBuffer := pool.GetCommandBuffer(bufferIndex);
      var op := SubmitOp(device.graphicsQueue, [frameSync.imageAvailable], [ColorAttachmentOutput],
                         [commandBuffer], [frameSync.renderFinished], frameSync.inFlightFence);
      r := queues.QueueSubmit(op, ok);
      pool.MarkSubmitted(bufferIndex, frameSync.inFlightFence.slot, ok);
    }

    /** present_frame: presents image `imageIndex` on the present queue once
        the slot's render-finished semaphore is signalled. The present queue
        is unwrapped, so a device without one panics here. */
    method PresentFrame(device: LogicalDevice.VulkanDevice, queues: DeviceQueues, imageIndex: nat,
                        frameSync: Sync.FrameSyncObjects, answer: PresentResult)
      returns (r: Result<(), FrameError>)
      requires device.presentQueue.Some?
      modifies queues
      ensures r.Ok? <==> answer.Presented?
      ensures r.Err? ==> r.error == ImagePresentFailed
      ensures queues.log == if answer.Presented?
        then old(queues.log) + [PresentOp(device.presentQueue.value, [frameSync.renderFinished], [imageIndex])]
        else old(queues.log)
    {
      var op := PresentOp(device.presentQueue.value, [frameSync.renderFinished], [imageIndex]);
      r := queues.QueuePresent(op, answer);
    }

    /** draw_frame as written: the command buffer is the one numbered by the
        acquired image. */
    method DrawFrame(device: LogicalDevice.VulkanDevice, swapchain: Swapchain.VulkanSwapchain,
                     renderPass: RenderPass.VulkanRenderPass, framebuffers: seq<Framebuffers.Framebuffer>,
                     pool: VulkanCommandPool, sync: Sync.VulkanSyncObjects, pipeline: Pipeline.VulkanPipeline,
                     queues: DeviceQueues, env: FrameEnv)
      returns (r: Result<(), FrameError>)
      requires sync.Valid()
      requires StepDefined(Config(device, swapchain, renderPass, framebuffers, pipeline),
                           Snapshot(sync, pool, queues), env, ByImageIndex)
      modifies this, sync.signaled, pool.buffers, queues
      ensures var step := Step(Config(device, swapchain, renderPass, framebuffers, pipeline),
                               old(Snapshot(sync, pool, queues)), env, ByImageIndex);
        Snapshot(sync, pool, queues) == step.next && r == step.outcome
    {
      r := DrawFrameIndexed(device, swapchain, renderPass, framebuffers, pool, sync, pipeline, queues, env,
                            ByImageIndex);
    }

    /** draw_frame with the command buffer of the current frame slot, the
        one whose fence was just waited on. */
    method DrawFrameSlotIndexed(device: LogicalDevice.VulkanDevice, swapchain: Swapchain.VulkanSwapchain,
                                renderPass: RenderPass.VulkanRenderPass, framebuffers: seq<Framebuffers.Framebuffer>,
                                pool: VulkanCommandPool, sync: Sync.VulkanSyncObjects,
                                pipeline: Pipeline.VulkanPipeline, queues: DeviceQueues, env: FrameEnv)
      returns (r: Result<(), FrameError>)
      requires sync.Valid()
      requires StepDefined(Config(device, swapchain, renderPass, framebuffers, pipeline),
                           Snapshot(sync, pool, queues), env, ByFrameSlot)
      modifies this, sync.signaled, pool.buffers, queues
      ensures var step := Step(Config(device, swapchain, renderPass, framebuffers, pipeline),
                               old(Snapshot(sync, pool, queues)), env, ByFrameSlot);
        Snapshot(sync, pool, queues) == step.next && r == step.outcome
    {
      r := DrawFrameIndexed(device, swapchain, renderPass, framebuffers, pool, sync, pipeline, queues, env,
                            ByFrameSlot);
    }

    /** The body of draw_frame, with the choice of command buffer as a
        parameter. */
    method DrawFrameIndexed(device: LogicalDevice.VulkanDevice, swapchain: Swapchain.VulkanSwapchain,
                            renderPass: RenderPass.VulkanRenderPass, framebuffers: seq<Framebuffers.Framebuffer>,
                            pool: VulkanCommandPool, sync: Sync.VulkanSyncObjects, pipeline: Pipeline.VulkanPipeline,
                            queues: DeviceQueues, env: FrameEnv, indexing: BufferIndexing)
      returns (r: Result<(), FrameError>)
      requires sync.Valid()
      requires StepDefined(Config(device, swapchain, renderPass, framebuffers, pipeline),
                           Snapshot(sync, pool, queues), env, indexing)
      modifies this, sync.signaled, pool.buffers, queues
      ensures var step := Step(Config(device, swapchain, renderPass, framebuffers, pipeline),
                               old(Snapshot(sync, pool, queues)), env, indexing);
        Snapshot(sync, pool, queues) == step.next && r == step.outcome
    {
      ghost var cfg := Config(device, swapchain, renderPass, framebuffers, pipeline);
      ghost var s := Snapshot(sync, pool, queues);
      ghost var step := Step(cfg, s, env, indexing);
      var cf := currentFrame;
      var waited := sync.WaitForFence(cf, env.waitOk);
      if waited.Err? {
        return Err(FenceWaitFailed);
      }
      pool.RetireFence(cf);
      ghost var w := s.(fences := s.fences[cf := true], buffers := RetireAll(s.buffers, cf));
      assert Snapshot(sync, pool, queues) == w;
      var frameImageSemaphore := sync.imageAvailableSemaphores[cf % sync.maxFramesInFlight];
      assert frameImageSemaphore == AcquireSemaphore(s);
      var acquired := queues.AcquireNextImage(frameImageSemaphore, env.acquire);
      if acquired.Err? {
        assert step == StepResult(w, Err(ImageAcquireFailed));
        return Err(ImageAcquireFailed);
      }
      var imageIndex := acquired.value;
      ghost var a := w.(log := w.log + [AcquireOp(AcquireSemaphore(s))]);
      assert Snapshot(sync, pool, queues) == a;
      var frameSync := sync.GetFrameSyncObjects(cf);
      var reset := sync.ResetFence(cf, env.resetFenceOk);
      if reset.Err? {
        assert step == StepResult(a, Err(FenceResetFailed));
        return Err(FenceResetFailed);
      }
      ghost var afterReset := a.(fences := a.fences[cf := false]);
      assert Snapshot(sync, pool, queues) == afterReset;
      r := RecordSubmitPresent(device, swapchain, renderPass, framebuffers, pool, sync, pipeline, queues, env,
                               indexing, imageIndex, frameSync);
    }

    /** The rest of draw_frame once the fence is reset: record into the
        target buffer, submit, present, and on success advance the slot. */
    method RecordSubmitPresent(device: LogicalDevice.VulkanDevice, swapchain: Swapchain.VulkanSwapchain,
                               renderPass: RenderPass.VulkanRenderPass, framebuffers: seq<Framebuffers.Framebuffer>,
                               pool: VulkanCommandPool, sync: Sync.VulkanSyncObjects,
                               pipeline: Pipeline.VulkanPipeline, queues: DeviceQueues, env: FrameEnv,
                               indexing: BufferIndexing, imageIndex: nat, frameSync: Sync.FrameSyncObjects)
      returns (r: Result<(), FrameError>)
      requires ReachesRecord(env) && imageIndex == env.acquire.imageIndex
      requires frameSync == Sync.SlotObjects(currentFrame)
      requires StepDefined(Config(device, swapchain, renderPass, framebuffers, pipeline),
                           Snapshot(sync, pool, queues), env, indexing)
      modifies this, pool.buffers, queues
      ensures var rest := RecordAndPresent(Config(device, swapchain, renderPass, framebuffers, pipeline),
                                           old(Snapshot(sync, pool, queues)), env, indexing);
        Snapshot(sync, pool, queues) == rest.next && r == rest.outcome
    {
      ghost var cfg := Config(device, swapchain, renderPass, framebuffers, pipeline);
      ghost var s := Snapshot(sync, pool, queues);
      ghost var rest := RecordAndPresent(cfg, s, env, indexing);
      var cf := currentFrame;
      var b := TargetBuffer(indexing, cf, imageIndex);
      ghost var rec := RecordFrame(cfg.targets, s.buffers[b], imageIndex, env);
      r := RecordCommandBuffer(pool, renderPass, framebuffers, swapchain, pipeline, b, imageIndex, env);
      ghost var recorded := s.(buffers := s.buffers[b := rec.buffer]);
      assert Snapshot(sync, pool, queues) == recorded;
      if r.Err? {
        assert rest == StepResult(recorded, rec.outcome);
        return;
      }
      r := SubmitCommandBuffer(device, pool, queues, b, frameSync, env.submitOk);
      if r.Err? {
        assert rest == StepResult(recorded, Err(QueueSubmitFailed));
        assert r == Err(QueueSubmitFailed);
        return;
      }
      ghost var submitted := recorded.(buffers := recorded.buffers[b := Submit(rec.buffer, cf, true)],
                                       log := recorded.log + [SubmitOpOf(cfg, cf, b)]);
      assert Snapshot(sync, pool, queues) == submitted;
      r := PresentFrame(device, queues, imageIndex, frameSync, env.present);
      if r.Err? {
        assert rest == StepResult(submitted, Err(ImagePresentFailed));
        assert r == Err(ImagePresentFailed);
        return;
      }
      currentFrame := (currentFrame + 1) % maxFramesInFlight;
      ghost var presented := submitted.(currentFrame := (cf + 1) % cfg.maxFramesInFlight,
                                        log := submitted.log + [PresentOpOf(cfg, cf, imageIndex)]);
      assert Snapshot(sync, pool, queues) == presented;
      assert rest == StepResult(presented, Ok(()));
      r := Ok(());
    }
  }
}
