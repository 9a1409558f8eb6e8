/** The per-frame protocol of VulkanRenderer::draw_frame
    (src/renderer/renderer.rs) as a function on an abstract device state:
    the fence of every frame slot, the state and contents of every command
    buffer, and the queue operations issued so far. One call of `Step` is one
    draw_frame; `Run` chains calls. The device's answers for one call are a
    `FrameEnv`.

    The renderer records into the command buffer numbered by the ACQUIRED
    IMAGE INDEX, while the fence it waited on and reset is the one of the
    CURRENT FRAME SLOT. `BufferIndexing` selects between that indexing
    (`ByImageIndex`, as written) and indexing by the frame slot
    (`ByFrameSlot`), so both can be stated and compared. */
module Frames {
  import opened VkTypes
  import opened CommandPool
  import Framebuffers
  import Pipeline
  import Sync

  datatype AcquireResult = Acquired(imageIndex: nat, suboptimal: bool) | AcquireFailed
  datatype PresentResult = Presented(suboptimal: bool) | PresentFailed

  /** The device's answers during one draw_frame: whether each call succeeds,
      and which image acquire hands out. */
  datatype FrameEnv = FrameEnv(
    waitOk: bool,
    acquire: AcquireResult,
    resetFenceOk: bool,
    resetBufferOk: bool,
    beginOk: bool,
    endOk: bool,
    submitOk: bool,
    present: PresentResult)

  /** The step of draw_frame that failed. */
  datatype FrameError =
    | FenceWaitFailed
    | ImageAcquireFailed
    | FenceResetFailed
    | BufferResetFailed
    | BufferBeginFailed
    | BufferEndFailed
    | QueueSubmitFailed
    | ImagePresentFailed

  /** Operations the queues and the presentation engine accepted. */
  datatype QueueOp =
    | AcquireOp(signalSemaphore: Semaphore)
    | SubmitOp(queue: QueueHandle, waitSemaphores: seq<Semaphore>, waitStages: seq<PipelineStage>,
               commandBuffers: seq<CommandBufferHandle>, signalSemaphores: seq<Semaphore>, fence: Fence)
    | PresentOp(queue: QueueHandle, waitSemaphores: seq<Semaphore>, imageIndices: seq<nat>)

  /** What record_command_buffer draws with: the render pass, the pipeline,
      one framebuffer per swapchain image and the swapchain extent. */
  datatype RenderTargets = RenderTargets(
    renderPass: RenderPassHandle,
    pipeline: PipelineHandle,
    framebuffers: seq<Framebuffers.Framebuffer>,
    extent: Extent2D)

  /** What stays fixed across frames: the renderer's slot count, the render
      targets and the queues. */
  datatype FrameConfig = FrameConfig(
    maxFramesInFlight: nat,
    targets: RenderTargets,
    graphicsQueue: QueueHandle,
    presentQueue: Option<QueueHandle>)

  /** `fences[i]`: the in-flight fence of slot i is signalled. */
  datatype FrameState = FrameState(
    currentFrame: nat,
    fences: seq<bool>,
    buffers: seq<CommandBuffer>,
    log: seq<QueueOp>)

  datatype StepResult = StepResult(next: FrameState, outcome: Result<(), FrameError>)
  datatype Recorded = Recorded(buffer: CommandBuffer, outcome: Result<(), FrameError>)

  datatype BufferIndexing = ByImageIndex | ByFrameSlot

  /** The command buffer a frame records into. */
  function TargetBuffer(indexing: BufferIndexing, currentFrame: nat, imageIndex: nat): (b: nat)
    ensures indexing == ByImageIndex ==> b == imageIndex
    ensures indexing == ByFrameSlot ==> b == currentFrame
  {
    match indexing
    case ByImageIndex => imageIndex
    case ByFrameSlot => currentFrame
  }

  /** The calls of draw_frame up to which the answers let it run. */
  predicate ReachesRecord(env: FrameEnv)
  {
    env.waitOk && env.acquire.Acquired? && env.resetFenceOk
  }

  predicate ReachesRenderPass(env: FrameEnv)
  {
    ReachesRecord(env) && env.resetBufferOk && env.beginOk
  }

  predicate ReachesPresent(env: FrameEnv)
  {
    ReachesRenderPass(env) && env.endOk && env.submitOk
  }

  /** The indexing draw_frame does without panicking: the fence, semaphore
      and (when reached) command buffer, framebuffer and present queue all
      exist. */
  predicate StepDefined(cfg: FrameConfig, s: FrameState, env: FrameEnv, indexing: BufferIndexing)
  {
    cfg.maxFramesInFlight > 0 &&
    s.currentFrame < |s.fences| &&
    (ReachesRecord(env) ==> TargetBuffer(indexing, s.currentFrame, env.acquire.imageIndex) < |s.buffers|) &&
    (ReachesRenderPass(env) ==> env.acquire.imageIndex < |cfg.targets.framebuffers|) &&
    (ReachesPresent(env) ==> cfg.presentQueue.Some?)
  }

  /** The commands record_command_buffer puts between begin and end: the
      render pass over framebuffer `imageIndex` and the whole extent, the
      pipeline, a viewport and a scissor covering the extent, one draw of
      three vertices, the end of the pass. */
  function RenderCommands(t: RenderTargets, imageIndex: nat): (cs: seq<Command>)
    requires imageIndex < |t.framebuffers|
    ensures |cs| == 6
    ensures cs[0].CmdBeginRenderPass? && cs[0].renderPass == t.renderPass &&
            cs[0].framebuffer == t.framebuffers[imageIndex] && cs[0].renderArea.extent == t.extent
    ensures cs[1] == CmdBindPipeline(Graphics, t.pipeline)
    ensures cs[2].CmdSetViewport? && cs[3].CmdSetScissor? && cs[3].scissor.extent == t.extent
    ensures cs[4] == CmdDraw(3, 1, 0, 0) && cs[5] == CmdEndRenderPass
  {
    [ CmdBeginRenderPass(t.renderPass, t.framebuffers[imageIndex],
                         Rect2D(Offset2D(0, 0), t.extent), 1, Inline),
      CmdBindPipeline(Graphics, t.pipeline),
      CmdSetViewport(0, Pipeline.FullExtentViewport(t.extent)),
      CmdSetScissor(0, Rect2D(Offset2D(0, 0), t.extent)),
      CmdDraw(3, 1, 0, 0),
      CmdEndRenderPass ]
  }

  /** record_command_buffer on one buffer: reset, begin, the render commands,
      end; a failed reset, begin or end stops it with that error. */
  function RecordFrame(t: RenderTargets, cb: CommandBuffer, imageIndex: nat, env: FrameEnv): (r: Recorded)
    requires env.resetBufferOk && env.beginOk ==> imageIndex < |t.framebuffers|
    ensures r.outcome.Ok? <==> env.resetBufferOk && env.beginOk && env.endOk
    ensures !env.resetBufferOk ==> r == Recorded(cb, Err(BufferResetFailed))
    ensures !r.buffer.state.Pending? || r.buffer == cb
  {
    var reset := Reset(cb, env.resetBufferOk);
    if !env.resetBufferOk then Recorded(reset, Err(BufferResetFailed))
    else
      var begun := Begin(reset, env.beginOk);
      if !env.beginOk then Recorded(begun, Err(BufferBeginFailed))
      else
        var ended := End(AppendAll(begun, RenderCommands(t, imageIndex)), env.endOk);
        if !env.endOk then Recorded(ended, Err(BufferEndFailed)) else Recorded(ended, Ok(()))
  }

  /** When every call succeeds the buffer holds exactly the render commands
      and is executable, whatever it held before; a failure is reported as
      the first call that failed. */
  lemma {:induction false} RecordFrameRecordsRenderCommands(t: RenderTargets, cb: CommandBuffer, imageIndex: nat,
                                                           env: FrameEnv)
    requires env.resetBufferOk && env.beginOk ==> imageIndex < |t.framebuffers|
    ensures var r := RecordFrame(t, cb, imageIndex, env);
      (r.outcome.Ok? <==> env.resetBufferOk && env.beginOk && env.endOk) &&
      (r.outcome.Ok? ==> r.buffer == CommandBuffer(Executable, RenderCommands(t, imageIndex))) &&
      (!env.resetBufferOk ==> r.buffer == cb && r.outcome == Err(BufferResetFailed)) &&
      (env.resetBufferOk && !env.beginOk ==> r.buffer == FreshBuffer && r.outcome == Err(BufferBeginFailed)) &&
      (env.resetBufferOk && env.beginOk && !env.endOk ==>
         r.buffer == CommandBuffer(Invalid, RenderCommands(t, imageIndex)) && r.outcome == Err(BufferEndFailed))
  {
    if env.resetBufferOk && env.beginOk {
      AppendAllRecords(Begin(Reset(cb, true), true), RenderCommands(t, imageIndex));
    }
  }

  /** The image-available semaphore draw_frame acquires with: the current
      slot reduced modulo the number of semaphores. Whenever the slot has a
      fence, that is the slot's own semaphore, the one its submission waits
      on. */
  function AcquireSemaphore(s: FrameState): (sem: Semaphore)
    requires |s.fences| > 0
    ensures sem.role == ImageAvailable && sem.slot < |s.fences|
    ensures s.currentFrame < |s.fences| ==> sem == SemaphoreId(ImageAvailable, s.currentFrame)
  {
    SemaphoreId(ImageAvailable, s.currentFrame % |s.fences|)
  }

  /** The submission of slot `frame`: wait on its image-available semaphore
      at the colour-output stage, run buffer `buffer`, signal its
      render-finished semaphore and its fence. */
  function SubmitOpOf(cfg: FrameConfig, frame: nat, buffer: nat): (op: QueueOp)
    ensures op.SubmitOp? && op.queue == cfg.graphicsQueue
    ensures op.waitSemaphores == [Sync.SlotObjects(frame).imageAvailable]
    ensures op.signalSemaphores == [Sync.SlotObjects(frame).renderFinished]
    ensures op.fence == Sync.SlotObjects(frame).inFlightFence
    ensures op.commandBuffers == [CommandBufferId(buffer)]
  {
    SubmitOp(cfg.graphicsQueue, [SemaphoreId(ImageAvailable, frame)], [ColorAttachmentOutput],
             [CommandBufferId(buffer)], [SemaphoreId(RenderFinished, frame)], FenceId(frame))
  }

  /** The presentation of slot `frame`: wait on its render-finished semaphore
      and present the acquired image. */
  function PresentOpOf(cfg: FrameConfig, frame: nat, imageIndex: nat): (op: QueueOp)
    requires cfg.presentQueue.Some?
    ensures op.PresentOp? && op.queue == cfg.presentQueue.value
    ensures op.waitSemaphores == [Sync.SlotObjects(frame).renderFinished]
    ensures op.imageIndices == [imageIndex]
  {
    PresentOp(cfg.presentQueue.value, [SemaphoreId(RenderFinished, frame)], [imageIndex])
  }

  /** The part of draw_frame after the fence reset, from the state `reset`
      it leaves: record into the target buffer, submit, present, advance the
      slot. The first failing step ends it with its error. */
  function RecordAndPresent(cfg: FrameConfig, reset: FrameState, env: FrameEnv, indexing: BufferIndexing)
    : (r: StepResult)
    requires ReachesRecord(env) && StepDefined(cfg, reset, env, indexing)
    ensures |r.next.fences| == |reset.fences| && |r.next.buffers| == |reset.buffers|
    ensures r.outcome.Ok? <==> ReachesPresent(env) && env.present.Presented?
    ensures r.outcome.Ok? ==> r.next.currentFrame == (reset.currentFrame + 1) % cfg.maxFramesInFlight
    ensures r.outcome.Err? ==> r.next.currentFrame == reset.currentFrame
    ensures r.next.fences == reset.fences
  {
    var cf := reset.currentFrame;
    var imageIndex := env.acquire.imageIndex;
    var b := TargetBuffer(indexing, cf, imageIndex);
    var rec := RecordFrame(cfg.targets, reset.buffers[b], imageIndex, env);
    var recorded := reset.(buffers := reset.buffers[b := rec.buffer]);
    if rec.outcome.Err? then StepResult(recorded, rec.outcome)
    else if !env.submitOk then StepResult(recorded, Err(QueueSubmitFailed))
    else
      var submitted := recorded.(buffers := recorded.buffers[b := Submit(rec.buffer, cf, true)],
                                 log := recorded.log + [SubmitOpOf(cfg, cf, b)]);
      if env.present.PresentFailed? then StepResult(submitted, Err(ImagePresentFailed))
      else StepResult(submitted.(currentFrame := (cf + 1) % cfg.maxFramesInFlight,
                                 log := submitted.log + [PresentOpOf(cfg, cf, imageIndex)]), Ok(()))
  }

  /** One draw_frame. The steps run in the source's order: wait on the slot's
      fence (on success the slot's fence is signalled and the work submitted
      with it has completed), acquire an image, reset the fence, then record,
      submit, present and advance the slot. The first failing step ends the
      call with its error, leaves `currentFrame` alone and skips every later
      step. */
  function Step(cfg: FrameConfig, s: FrameState, env: FrameEnv, indexing: BufferIndexing): (r: StepResult)
    requires StepDefined(cfg, s, env, indexing)
    ensures |r.next.fences| == |s.fences| && |r.next.buffers| == |s.buffers|
    ensures r.outcome.Ok? <==> ReachesPresent(env) && env.present.Presented?
    ensures r.outcome.Ok? ==> r.next.currentFrame == (s.currentFrame + 1) % cfg.maxFramesInFlight
    ensures r.outcome.Err? ==> r.next.currentFrame == s.currentFrame
    ensures r.next.currentFrame < cfg.maxFramesInFlight || r.next.currentFrame == s.currentFrame
    ensures !env.waitOk ==> r == StepResult(s, Err(FenceWaitFailed))
  {
    var cf := s.currentFrame;
    if !env.waitOk then StepResult(s, Err(FenceWaitFailed))
    else
      var waited := s.(fences := s.fences[cf := true], buffers := RetireAll(s.buffers, cf));
      if env.acquire.AcquireFailed? then StepResult(waited, Err(ImageAcquireFailed))
      else
        var acquired := waited.(log := waited.log + [AcquireOp(AcquireSemaphore(s))]);
        if !env.resetFenceOk then StepResult(acquired, Err(FenceResetFailed))
        else RecordAndPresent(cfg, acquired.(fences := acquired.fences[cf := false]), env, indexing)
  }

  /** A frame that runs to the end leaves the slot's fence unsignalled again
      (the work just submitted will signal it) and every other fence as the
      wait left it. */
  lemma SuccessfulStepResetsSlotFence(cfg: FrameConfig, s: FrameState, env: FrameEnv, indexing: BufferIndexing)
    requires StepDefined(cfg, s, env, indexing)
    requires Step(cfg, s, env, indexing).outcome.Ok?
    ensures Step(cfg, s, env, indexing).next.fences == s.fences[s.currentFrame := false]
  {
    var cf := s.currentFrame;
    assert Step(cfg, s, env, indexing).next.fences == s.fences[cf := true][cf := false];
    assert s.fences[cf := true][cf := false] == s.fences[cf := false];
  }

  /** A frame that runs to the end leaves its target buffer holding exactly
      the render commands and pending on the slot's fence, whatever it held
      before; every other buffer only had the slot's completed work retired. */
  lemma SuccessfulStepLeavesBufferPending(cfg: FrameConfig, s: FrameState, env: FrameEnv, indexing: BufferIndexing)
    requires StepDefined(cfg, s, env, indexing)
    requires Step(cfg, s, env, indexing).outcome.Ok?
    ensures var cf := s.currentFrame;
      var ii := env.acquire.imageIndex;
      Step(cfg, s, env, indexing).next.buffers ==
        RetireAll(s.buffers, cf)[TargetBuffer(indexing, cf, ii) := CommandBuffer(Pending(cf), RenderCommands(cfg.targets, ii))]
  {
    var cf := s.currentFrame;
    var ii := env.acquire.imageIndex;
    var b := TargetBuffer(indexing, cf, ii);
    var retired := RetireAll(s.buffers, cf);
    var rec := RecordFrame(cfg.targets, retired[b], ii, env);
    RecordFrameRecordsRenderCommands(cfg.targets, retired[b], ii, env);
    var pending := CommandBuffer(Pending(cf), RenderCommands(cfg.targets, ii));
    assert Step(cfg, s, env, indexing).next.buffers == retired[b := rec.buffer][b := pending];
    assert retired[b := rec.buffer][b := pending] == retired[b := pending];
  }

  /** A frame that runs to the end issues acquire, submit and present, in
      that order and nothing else. */
  lemma SuccessfulStepQueueOrder(cfg: FrameConfig, s: FrameState, env: FrameEnv, indexing: BufferIndexing)
    requires StepDefined(cfg, s, env, indexing)
    requires Step(cfg, s, env, indexing).outcome.Ok?
    ensures var cf := s.currentFrame;
      var ii := env.acquire.imageIndex;
      Step(cfg, s, env, indexing).next.log ==
        s.log + [AcquireOp(SemaphoreId(ImageAvailable, cf)), SubmitOpOf(cfg, cf, TargetBuffer(indexing, cf, ii)),
                 PresentOpOf(cfg, cf, ii)]
  {
    var cf := s.currentFrame;
    var ii := env.acquire.imageIndex;
    var acquire := AcquireOp(SemaphoreId(ImageAvailable, cf));
    var submit := SubmitOpOf(cfg, cf, TargetBuffer(indexing, cf, ii));
    var present := PresentOpOf(cfg, cf, ii);
    var afterReset := FrameState(cf, s.fences[cf := true][cf := false], RetireAll(s.buffers, cf), s.log + [acquire]);
    assert Step(cfg, s, env, indexing) == RecordAndPresent(cfg, afterReset, env, indexing);
    RecordAndPresentLog(cfg, afterReset, env, indexing);
    assert (s.log + [acquire]) + [submit, present] == s.log + [acquire, submit, present];
  }

  /** The second half of a frame that runs to the end issues submit, then
      present. */
  lemma RecordAndPresentLog(cfg: FrameConfig, reset: FrameState, env: FrameEnv, indexing: BufferIndexing)
    requires ReachesRecord(env) && StepDefined(cfg, reset, env, indexing)
    requires RecordAndPresent(cfg, reset, env, indexing).outcome.Ok?
    ensures var cf := reset.currentFrame;
      var ii := env.acquire.imageIndex;
      RecordAndPresent(cfg, reset, env, indexing).next.log ==
        reset.log + [SubmitOpOf(cfg, cf, TargetBuffer(indexing, cf, ii)), PresentOpOf(cfg, cf, ii)]
  {
    var cf := reset.currentFrame;
    var ii := env.acquire.imageIndex;
    var submit := SubmitOpOf(cfg, cf, TargetBuffer(indexing, cf, ii));
    var present := PresentOpOf(cfg, cf, ii);
    assert reset.log + [submit] + [present] == reset.log + [submit, present];
  }

  /** Within one slot the queue operations chain through that slot's
      semaphores: the one acquire signals is the one the submission waits on
      (at the colour-output stage), the one the submission signals is the
      one presentation waits on, and the submission signals the slot's fence.
      Distinct slots use distinct semaphores and fences. */
  lemma SlotSemaphoresChain(cfg: FrameConfig, frame: nat, buffer: nat, imageIndex: nat, other: nat)
    requires cfg.presentQueue.Some?
    ensures var submit := SubmitOpOf(cfg, frame, buffer);
      var present := PresentOpOf(cfg, frame, imageIndex);
      AcquireOp(SemaphoreId(ImageAvailable, frame)).signalSemaphore == submit.waitSemaphores[0] &&
      submit.waitStages == [ColorAttachmentOutput] &&
      submit.signalSemaphores == present.waitSemaphores &&
      submit.fence == FenceId(frame) &&
      submit.commandBuffers == [CommandBufferId(buffer)] &&
      present.imageIndices == [imageIndex]
    ensures other != frame ==>
      SubmitOpOf(cfg, other, buffer).waitSemaphores != SubmitOpOf(cfg, frame, buffer).waitSemaphores &&
      SubmitOpOf(cfg, other, buffer).signalSemaphores != SubmitOpOf(cfg, frame, buffer).signalSemaphores &&
      SubmitOpOf(cfg, other, buffer).fence != SubmitOpOf(cfg, frame, buffer).fence
  {
    if other != frame {
      assert SubmitOpOf(cfg, other, buffer).waitSemaphores[0] != SubmitOpOf(cfg, frame, buffer).waitSemaphores[0];
      assert SubmitOpOf(cfg, other, buffer).signalSemaphores[0] != SubmitOpOf(cfg, frame, buffer).signalSemaphores[0];
    }
  }

  /** An acquire failure returns after the wait and before the fence reset:
      the slot's fence stays signalled, nothing is recorded or queued, and
      the slot does not advance. */
  lemma AcquireFailureKeepsFenceSignalled(cfg: FrameConfig, s: FrameState, env: FrameEnv, indexing: BufferIndexing)
    requires StepDefined(cfg, s, env, indexing)
    requires env.waitOk && env.acquire.AcquireFailed?
    ensures var r := Step(cfg, s, env, indexing);
      r.outcome == Err(ImageAcquireFailed) &&
      r.next == FrameState(s.currentFrame, s.fences[s.currentFrame := true], RetireAll(s.buffers, s.currentFrame), s.log)
  {
  }

  /** A failure after the fence reset (record or submit) leaves the slot's
      fence unsignalled with no submitted work pending on it, and the slot
      unchanged: a later draw_frame on the same slot waits on a fence that
      nothing will signal. */
  lemma LateFailureOrphansFence(cfg: FrameConfig, s: FrameState, env: FrameEnv, indexing: BufferIndexing)
    requires StepDefined(cfg, s, env, indexing)
    requires ReachesRecord(env) && !ReachesPresent(env)
    ensures var r := Step(cfg, s, env, indexing);
      r.outcome.Err? && r.next.currentFrame == s.currentFrame &&
      !r.next.fences[s.currentFrame] &&
      forall j :: 0 <= j < |r.next.buffers| ==> r.next.buffers[j].state != Pending(s.currentFrame)
  {
    var cf := s.currentFrame;
    var b := TargetBuffer(indexing, cf, env.acquire.imageIndex);
    RetireAllClearsSlot(s.buffers, cf);
    var rec := RecordFrame(cfg.targets, RetireAll(s.buffers, cf)[b], env.acquire.imageIndex, env);
    RecordFrameRecordsRenderCommands(cfg.targets, RetireAll(s.buffers, cf)[b], env.acquire.imageIndex, env);
    assert rec.buffer.state != Pending(cf);
  }

  /** The suboptimal flags of acquire and present are ignored: a suboptimal
      result proceeds exactly like an optimal one. */
  lemma SuboptimalIsIgnored(cfg: FrameConfig, s: FrameState, env: FrameEnv, indexing: BufferIndexing,
                            imageIndex: nat, sub1: bool, sub2: bool)
    requires env.acquire == Acquired(imageIndex, sub1)
    requires StepDefined(cfg, s, env, indexing)
    ensures StepDefined(cfg, s, env.(acquire := Acquired(imageIndex, sub2)), indexing)
    ensures Step(cfg, s, env, indexing) == Step(cfg, s, env.(acquire := Acquired(imageIndex, sub2)), indexing)
    ensures env.present.Presented? ==>
      Step(cfg, s, env, indexing) == Step(cfg, s, env.(present := Presented(!env.present.suboptimal)), indexing)
  {
  }

  // ---------------------------------------------------------------------
  // Runs of several frames

  /** Every frame of a run can execute without panicking. */
  predicate RunDefined(cfg: FrameConfig, s: FrameState, envs: seq<FrameEnv>, indexing: BufferIndexing)
    decreases |envs|
  {
    |envs| == 0 ||
    (StepDefined(cfg, s, envs[0], indexing) &&
     RunDefined(cfg, Step(cfg, s, envs[0], indexing).next, envs[1..], indexing))
  }

  /** The state after a run of draw_frame calls (each one whatever its
      outcome: the caller may go on after an error). */
  function Run(cfg: FrameConfig, s: FrameState, envs: seq<FrameEnv>, indexing: BufferIndexing): (r: FrameState)
    requires RunDefined(cfg, s, envs, indexing)
    ensures |r.fences| == |s.fences| && |r.buffers| == |s.buffers|
    ensures r.currentFrame < cfg.maxFramesInFlight || r.currentFrame == s.currentFrame
    decreases |envs|
  {
    if |envs| == 0 then s
    else Run(cfg, Step(cfg, s, envs[0], indexing).next, envs[1..], indexing)
  }

  /** The slot each frame of a run starts in. */
  function Slots(cfg: FrameConfig, s: FrameState, envs: seq<FrameEnv>, indexing: BufferIndexing): (slots: seq<nat>)
    requires RunDefined(cfg, s, envs, indexing)
    ensures |slots| == |envs|
    decreases |envs|
  {
    if |envs| == 0 then []
    else [s.currentFrame] + Slots(cfg, Step(cfg, s, envs[0], indexing).next, envs[1..], indexing)
  }

  /** Every call succeeds and hands out an image that has a command buffer
      and a framebuffer, and a present queue exists. */
  predicate AllSucceed(cfg: FrameConfig, nBuffers: nat, envs: seq<FrameEnv>)
  {
    cfg.presentQueue.Some? &&
    forall k :: 0 <= k < |envs| ==>
      ReachesPresent(envs[k]) && envs[k].present.Presented? &&
      envs[k].acquire.imageIndex < nBuffers && envs[k].acquire.imageIndex < |cfg.targets.framebuffers|
  }

  /** The shape of the state that makes every slot's fence exist. */
  predicate SlotsFit(cfg: FrameConfig, s: FrameState)
  {
    0 < cfg.maxFramesInFlight <= |s.fences| && s.currentFrame < cfg.maxFramesInFlight
  }

  lemma AllSucceedTail(cfg: FrameConfig, nBuffers: nat, envs: seq<FrameEnv>)
    requires |envs| > 0 && AllSucceed(cfg, nBuffers, envs)
    ensures AllSucceed(cfg, nBuffers, envs[1..])
  {
    forall k | 0 <= k < |envs[1..]|
      ensures ReachesPresent(envs[1..][k]) && envs[1..][k].present.Presented?
      ensures envs[1..][k].acquire.imageIndex < nBuffers
      ensures envs[1..][k].acquire.imageIndex < |cfg.targets.framebuffers|
    {
      assert envs[1..][k] == envs[k + 1];
    }
  }

  /** The first frame of a run where every call succeeds can execute, moves
      to the next slot, and leaves a state where the rest of the run still
      succeeds. */
  lemma AllSucceedStep(cfg: FrameConfig, s: FrameState, envs: seq<FrameEnv>)
    requires |envs| > 0 && SlotsFit(cfg, s) && AllSucceed(cfg, |s.buffers|, envs)
    ensures StepDefined(cfg, s, envs[0], ByImageIndex)
    ensures var next := Step(cfg, s, envs[0], ByImageIndex).next;
      SlotsFit(cfg, next) && AllSucceed(cfg, |next.buffers|, envs[1..]) &&
      next.currentFrame == (s.currentFrame + 1) % cfg.maxFramesInFlight
  {
    AllSucceedTail(cfg, |s.buffers|, envs);
  }

  lemma {:induction false} AllSucceedRunDefined(cfg: FrameConfig, s: FrameState, envs: seq<FrameEnv>)
    requires SlotsFit(cfg, s) && AllSucceed(cfg, |s.buffers|, envs)
    ensures RunDefined(cfg, s, envs, ByImageIndex)
    decreases |envs|
  {
    if |envs| > 0 {
      AllSucceedStep(cfg, s, envs);
      AllSucceedRunDefined(cfg, Step(cfg, s, envs[0], ByImageIndex).next, envs[1..]);
    }
  }

  /** `count` slots from `start`, each the one after its predecessor
      modulo n. */
  function Rotation(start: nat, n: nat, count: nat): (slots: seq<nat>)
    requires start < n
    ensures |slots| == count
    ensures count > 0 ==> slots[0] == start
    ensures forall k :: 0 <= k < count ==> slots[k] < n
    ensures forall k :: 0 <= k < count - 1 ==> slots[k + 1] == (slots[k] + 1) % n
    decreases count
  {
    if count == 0 then [] else [start] + Rotation((start + 1) % n, n, count - 1)
  }

  /** In a run where every call succeeds the slot advances by one per frame,
      wrapping at maxFramesInFlight: the slots the frames start in, followed
      by the slot the run ends in, are the rotation from the current slot. */
  lemma {:induction false} AllSucceedSlots(cfg: FrameConfig, s: FrameState, envs: seq<FrameEnv>)
    requires SlotsFit(cfg, s) && AllSucceed(cfg, |s.buffers|, envs)
    ensures RunDefined(cfg, s, envs, ByImageIndex)
    ensures Slots(cfg, s, envs, ByImageIndex) + [Run(cfg, s, envs, ByImageIndex).currentFrame] ==
            Rotation(s.currentFrame, cfg.maxFramesInFlight, |envs| + 1)
    decreases |envs|
  {
    AllSucceedRunDefined(cfg, s, envs);
    if |envs| > 0 {
      AllSucceedStep(cfg, s, envs);
      var next := Step(cfg, s, envs[0], ByImageIndex).next;
      AllSucceedSlots(cfg, next, envs[1..]);
      var rest := Slots(cfg, next, envs[1..], ByImageIndex);
      var last := Run(cfg, next, envs[1..], ByImageIndex).currentFrame;
      FirstFrameOfRun(cfg, s, envs, ByImageIndex);
      assert ([s.currentFrame] + rest) + [last] == [s.currentFrame] + (rest + [last]);
    }
  }

  /** A run is its first frame followed by the rest of the run. */
  lemma FirstFrameOfRun(cfg: FrameConfig, s: FrameState, envs: seq<FrameEnv>, indexing: BufferIndexing)
    requires |envs| > 0 && RunDefined(cfg, s, envs, indexing)
    ensures var next := Step(cfg, s, envs[0], indexing).next;
      RunDefined(cfg, next, envs[1..], indexing) &&
      Slots(cfg, s, envs, indexing) == [s.currentFrame] + Slots(cfg, next, envs[1..], indexing) &&
      Run(cfg, s, envs, indexing) == Run(cfg, next, envs[1..], indexing)
  {
  }

  /** The renderer's own configuration: three slots, from slot 0, seven
      successful frames start in slots 0, 1, 2, 0, 1, 2, 0 and leave the
      renderer in slot 1. */
  lemma SevenFramesCycleThroughThreeSlots(cfg: FrameConfig, s: FrameState, envs: seq<FrameEnv>)
    requires cfg.maxFramesInFlight == 3 && s.currentFrame == 0 && |s.fences| >= 3
    requires |envs| == 7 && AllSucceed(cfg, |s.buffers|, envs)
    ensures RunDefined(cfg, s, envs, ByImageIndex)
    ensures Slots(cfg, s, envs, ByImageIndex) == [0, 1, 2, 0, 1, 2, 0]
    ensures Run(cfg, s, envs, ByImageIndex).currentFrame == 1
  {
    AllSucceedSlots(cfg, s, envs);
    var slots := Slots(cfg, s, envs, ByImageIndex);
    var whole := slots + [Run(cfg, s, envs, ByImageIndex).currentFrame];
    ThreeSlotRotation();
    assert slots == whole[..7];
  }

  /** Eight slots of the rotation over three slots, from slot 0. */
  lemma ThreeSlotRotation()
    ensures Rotation(0, 3, 8) == [0, 1, 2, 0, 1, 2, 0, 1]
  {
    assert Rotation(1, 3, 1) == [1];
    assert Rotation(2, 3, 3) == [2, 0, 1];
    assert Rotation(0, 3, 5) == [0, 1, 2, 0, 1];
  }

  // ---------------------------------------------------------------------
  // Recording into a buffer that is still in flight

  /** The frame resets and re-records a command buffer whose earlier
      submission has not been seen to complete: the fence just waited on
      covers slot currentFrame's work only. Section 6.1 of the Vulkan 1.3
      specification forbids resetting or beginning a pending buffer. */
  predicate RecordsIntoPending(s: FrameState, env: FrameEnv, indexing: BufferIndexing)
  {
    ReachesRecord(env) &&
    var b := TargetBuffer(indexing, s.currentFrame, env.acquire.imageIndex);
    b < |s.buffers| && RetireAll(s.buffers, s.currentFrame)[b].state.Pending?
  }

  /** No frame of the run records into a pending buffer. */
  predicate RunHazardFree(cfg: FrameConfig, s: FrameState, envs: seq<FrameEnv>, indexing: BufferIndexing)
    requires RunDefined(cfg, s, envs, indexing)
    decreases |envs|
  {
    |envs| == 0 ||
    (!RecordsIntoPending(s, envs[0], indexing) &&
     RunHazardFree(cfg, Step(cfg, s, envs[0], indexing).next, envs[1..], indexing))
  }

  /** Every pending buffer is pending on the fence of the slot with its own
      number. */
  predicate PendingOnOwnSlot(s: FrameState)
  {
    forall j :: 0 <= j < |s.buffers| && s.buffers[j].state.Pending? ==> s.buffers[j].state.fenceSlot == j
  }

  /** Each frame of the run acquires the image whose number is its slot. */
  predicate AcquiresMatchSlots(cfg: FrameConfig, s: FrameState, envs: seq<FrameEnv>, indexing: BufferIndexing)
    requires RunDefined(cfg, s, envs, indexing)
    decreases |envs|
  {
    |envs| == 0 ||
    ((envs[0].acquire.Acquired? ==> envs[0].acquire.imageIndex == s.currentFrame) &&
     AcquiresMatchSlots(cfg, Step(cfg, s, envs[0], indexing).next, envs[1..], indexing))
  }

  /** One frame that records into the buffer of its own slot keeps every
      pending buffer on its own slot's fence, and so never records into a
      pending buffer: the wait on the slot's fence has retired that buffer. */
  lemma OwnSlotStep(cfg: FrameConfig, s: FrameState, env: FrameEnv, indexing: BufferIndexing)
    requires StepDefined(cfg, s, env, indexing) && PendingOnOwnSlot(s)
    requires indexing == ByFrameSlot || (env.acquire.Acquired? ==> env.acquire.imageIndex == s.currentFrame)
    ensures !RecordsIntoPending(s, env, indexing)
    ensures PendingOnOwnSlot(Step(cfg, s, env, indexing).next)
  {
    var cf := s.currentFrame;
    var retired := RetireAll(s.buffers, cf);
    RetireAllClearsSlot(s.buffers, cf);
    assert PendingOnOwnSlot(s.(buffers := retired));
    if ReachesRecord(env) {
      var ii := env.acquire.imageIndex;
      var b := TargetBuffer(indexing, cf, ii);
      assert b == cf;
      RecordFrameRecordsRenderCommands(cfg.targets, retired[b], ii, env);
    }
  }

  /** With the buffer chosen by frame slot, no frame of any run records into
      a pending buffer. */
  lemma {:induction false} FrameSlotIndexingNeverRecordsIntoPending(cfg: FrameConfig, s: FrameState,
                                                                    envs: seq<FrameEnv>)
    requires RunDefined(cfg, s, envs, ByFrameSlot) && PendingOnOwnSlot(s)
    ensures RunHazardFree(cfg, s, envs, ByFrameSlot)
    decreases |envs|
  {
    if |envs| > 0 {
      OwnSlotStep(cfg, s, envs[0], ByFrameSlot);
      FrameSlotIndexingNeverRecordsIntoPending(cfg, Step(cfg, s, envs[0], ByFrameSlot).next, envs[1..]);
    }
  }

  /** With the buffer chosen by image index, as draw_frame does, no frame
      records into a pending buffer PROVIDED every acquire hands out the
      image numbered like the current slot. */
  lemma {:induction false} ImageIndexingSafeWhenAcquiresMatchSlots(cfg: FrameConfig, s: FrameState,
                                                                   envs: seq<FrameEnv>)
    requires RunDefined(cfg, s, envs, ByImageIndex) && PendingOnOwnSlot(s)
    requires AcquiresMatchSlots(cfg, s, envs, ByImageIndex)
    ensures RunHazardFree(cfg, s, envs, ByImageIndex)
    decreases |envs|
  {
    if |envs| > 0 {
      OwnSlotStep(cfg, s, envs[0], ByImageIndex);
      ImageIndexingSafeWhenAcquiresMatchSlots(cfg, Step(cfg, s, envs[0], ByImageIndex).next, envs[1..]);
    }
  }

  /** The state right after construction: slot 0, every fence signalled,
      every buffer fresh, no queue traffic. */
  function InitialState(slots: nat, bufferCount: nat): (s: FrameState)
    ensures PendingOnOwnSlot(s)
    ensures forall j :: 0 <= j < |s.buffers| ==> !s.buffers[j].state.Pending?
    ensures forall i :: 0 <= i < |s.fences| ==> s.fences[i]
  {
    FrameState(0, seq(slots, _ => true), seq(bufferCount, _ => FreshBuffer), [])
  }

  /** Two successful frames that both acquire image 0, with three slots and
      three buffers from the initial state: the second frame, in slot 1,
      waits on fence 1 and then resets and records buffer 0, which is still
      pending on fence 0. With the buffer chosen by slot the same answers
      cause no such overlap. */
  lemma ImageIndexingRecordsIntoPendingBuffer(cfg: FrameConfig)
    requires cfg.maxFramesInFlight == 3 && |cfg.targets.framebuffers| == 3 && cfg.presentQueue.Some?
    ensures var env := FrameEnv(true, Acquired(0, false), true, true, true, true, true, Presented(false));
      var s0 := InitialState(3, 3);
      RunDefined(cfg, s0, [env, env], ByImageIndex) &&
      !RunHazardFree(cfg, s0, [env, env], ByImageIndex) &&
      RunDefined(cfg, s0, [env, env], ByFrameSlot) &&
      RunHazardFree(cfg, s0, [env, env], ByFrameSlot)
  {
    var env := FrameEnv(true, Acquired(0, false), true, true, true, true, true, Presented(false));
    var s0 := InitialState(3, 3);
    SuccessfulStepLeavesBufferPending(cfg, s0, env, ByImageIndex);
    var s1 := Step(cfg, s0, env, ByImageIndex).next;
    assert s1.currentFrame == 1;
    assert s1.buffers[0].state == Pending(0);
    assert RetireAll(s1.buffers, 1)[0].state == Pending(0);
    assert RecordsIntoPending(s1, env, ByImageIndex);
    assert [env, env][1..] == [env];
    assert RunDefined(cfg, s1, [env], ByImageIndex);
    SuccessfulStepLeavesBufferPending(cfg, s0, env, ByFrameSlot);
    var t1 := Step(cfg, s0, env, ByFrameSlot).next;
    assert RunDefined(cfg, t1, [env], ByFrameSlot);
    FrameSlotIndexingNeverRecordsIntoPending(cfg, s0, [env, env]);
  }
}
