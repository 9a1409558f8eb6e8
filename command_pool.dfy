/** The command pool and its primary command buffers
    (src/vulkan/command_pool.rs). Each buffer is modelled by its lifecycle
    state (section 6.1 "Command Buffer Lifecycle" of the Vulkan 1.3
    specification) together with the commands recorded into it. The pure
    transition functions below say what one Vulkan call does to one buffer;
    the class applies them in place to `buffers[index]` and touches no other
    buffer. Whether a driver call succeeds is an input flag. */
module CommandPool {
  import opened VkTypes
  import opened PhysicalDevice
  import Framebuffers
  import Pipeline

  datatype SubpassContents = Inline | SecondaryCommandBuffers

  /** The commands the renderer records. */
  datatype Command =
    | CmdBeginRenderPass(renderPass: RenderPassHandle, framebuffer: Framebuffers.Framebuffer,
                      renderArea: Rect2D, clearValueCount: nat, contents: SubpassContents)
    | CmdBindPipeline(bindPoint: BindPoint, pipeline: PipelineHandle)
    | CmdSetViewport(firstViewport: nat, viewport: Pipeline.Viewport)
    | CmdSetScissor(firstScissor: nat, scissor: Rect2D)
    | CmdDraw(vertexCount: U32, instanceCount: U32, firstVertex: U32, firstInstance: U32)
    | CmdEndRenderPass

  /** The lifecycle states of section 6.1; a pending buffer remembers the
      frame slot whose fence its submission signals. */
  datatype BufferState = Initial | Recording | Executable | Pending(fenceSlot: nat) | Invalid

  datatype CommandBuffer = CommandBuffer(state: BufferState, commands: seq<Command>)

  const FreshBuffer: CommandBuffer := CommandBuffer(Initial, [])

  /** vkResetCommandBuffer: on success the buffer is initial and empty; a
      failed call changes nothing. */
  function Reset(cb: CommandBuffer, ok: bool): (r: CommandBuffer)
    ensures ok ==> r.state == Initial && r.commands == []
    ensures !ok ==> r == cb
  {
    if ok then FreshBuffer else cb
  }

  /** vkBeginCommandBuffer in a pool created with RESET_COMMAND_BUFFER: on
      success the buffer is implicitly reset and starts recording. */
  function Begin(cb: CommandBuffer, ok: bool): (r: CommandBuffer)
    ensures ok ==> r.state == Recording && r.commands == []
    ensures !ok ==> r == cb
  {
    if ok then CommandBuffer(Recording, []) else cb
  }

  /** vkEndCommandBuffer: a recording buffer becomes executable with what was
      recorded; a failure, or ending a buffer that is not recording, leaves
      it invalid. */
  function End(cb: CommandBuffer, ok: bool): (r: CommandBuffer)
    ensures r.commands == cb.commands
    ensures r.state == Executable <==> cb.state == Recording && ok
    ensures r.state != Executable ==> r.state == Invalid
  {
    if cb.state == Recording && ok then CommandBuffer(Executable, cb.commands)
    else CommandBuffer(Invalid, cb.commands)
  }

  /** vkCmd*: a recording buffer gains the command at the end; recording into
      a buffer in any other state invalidates it. */
  function Append(cb: CommandBuffer, c: Command): (r: CommandBuffer)
    ensures cb.state == Recording ==> r.state == Recording && r.commands == cb.commands + [c]
    ensures cb.state != Recording ==> r.state == Invalid && r.commands == cb.commands
  {
    if cb.state == Recording then CommandBuffer(Recording, cb.commands + [c])
    else CommandBuffer(Invalid, cb.commands)
  }

  /** vkQueueSubmit: an executable buffer becomes pending on the fence of
      `slot`; a failed submission changes nothing. */
  function Submit(cb: CommandBuffer, slot: nat, ok: bool): (r: CommandBuffer)
    ensures r.commands == cb.commands
    ensures ok && cb.state == Executable ==> r.state == Pending(slot)
    ensures ok && cb.state != Executable ==> r.state == Invalid
    ensures !ok ==> r == cb
  {
    if !ok then cb
    else if cb.state == Executable then CommandBuffer(Pending(slot), cb.commands)
    else CommandBuffer(Invalid, cb.commands)
  }

  /** The fence of `slot` was seen signalled: every buffer pending on it has
      completed and is executable again (it was not begun with
      ONE_TIME_SUBMIT). Other buffers are untouched. */
  function Retire(cb: CommandBuffer, slot: nat): (r: CommandBuffer)
    ensures r.commands == cb.commands
    ensures cb.state == Pending(slot) ==> r.state == Executable
    ensures cb.state != Pending(slot) ==> r == cb
  {
    if cb.state == Pending(slot) then CommandBuffer(Executable, cb.commands) else cb
  }

  datatype PoolError = PoolCreationFailed | AllocationFailed | BeginFailed | EndFailed | ResetFailed

  /** The number of buffers allocated for a requested count: the count is cast
      to u32, keeping its low 32 bits. */
  function AllocatedCount(bufferCount: nat): (n: nat)
    ensures n <= U32Max
    ensures bufferCount <= U32Max ==> n == bufferCount
  {
    bufferCount % 0x1_0000_0000
  }

  class VulkanCommandPool {
    /** The family the pool was created for (the graphics family). */
    const queueFamily: nat
    /** The pool was created with RESET_COMMAND_BUFFER. */
    const resetCommandBuffer: bool
    /** command_buffers: the allocated primary buffers, in allocation order. */
    const buffers: array<CommandBuffer>

    constructor Init(family: nat, count: nat)
      ensures queueFamily == family && resetCommandBuffer
      ensures fresh(buffers) && buffers.Length == count
      ensures forall i :: 0 <= i < count ==> buffers[i] == FreshBuffer
    {
      queueFamily := family;
      resetCommandBuffer := true;
      buffers := new CommandBuffer[count](_ => FreshBuffer);
    }

    /** VulkanCommandPool::new: a pool for the graphics family (whose absence
        is a panic), then `bufferCount` primary buffers. */
    static method New(q: QueueFamilyIndices, bufferCount: nat, createOk: bool, allocateOk: bool)
      returns (r: Result<VulkanCommandPool, PoolError>)
      requires q.graphicsFamily.Some?
      ensures !createOk ==> r == Err(PoolCreationFailed)
      ensures createOk && !allocateOk ==> r == Err(AllocationFailed)
      ensures r.Ok? <==> createOk && allocateOk
      ensures r.Ok? ==> fresh(r.value) && fresh(r.value.buffers)
      ensures r.Ok? ==> r.value.queueFamily == q.graphicsFamily.value && r.value.resetCommandBuffer
      ensures r.Ok? ==> r.value.buffers.Length == AllocatedCount(bufferCount)
      ensures r.Ok? ==> forall i :: 0 <= i < r.value.buffers.Length ==> r.value.buffers[i] == FreshBuffer
    {
      var family := q.graphicsFamily.value;
      if !createOk {
        return Err(PoolCreationFailed);
      }
      if !allocateOk {
        return Err(AllocationFailed);
      }
      var pool := new VulkanCommandPool.Init(family, AllocatedCount(bufferCount));
      r := Ok(pool);
    }

    /** get_command_buffer: the handle of buffer `index`; out of range panics. */
    function GetCommandBuffer(index: nat): (h: CommandBufferHandle)
      requires index < buffers.Length
      ensures h.index == index
    {
      CommandBufferId(index)
    }

    /** buffer_count: the number of allocated buffers. */
    function BufferCount(): (n: nat)
      ensures n == buffers.Length
    {
      buffers.Length
    }

    method ResetCommandBuffer(index: nat, ok: bool) returns (r: Result<(), PoolError>)
      requires index < buffers.Length
      modifies buffers
      ensures r.Ok? <==> ok
      ensures r.Err? ==> r.error == ResetFailed
      ensures buffers[..] == old(buffers[..])[index := Reset(old(buffers[index]), ok)]
    {
      buffers[index] := Reset(buffers[index], ok);
      r := if ok then Ok(()) else Err(ResetFailed);
    }

    method BeginCommandBuffer(index: nat, ok: bool) returns (r: Result<(), PoolError>)
      requires index < buffers.Length
      modifies buffers
      ensures r.Ok? <==> ok
      ensures r.Err? ==> r.error == BeginFailed
      ensures buffers[..] == old(buffers[..])[index := Begin(old(buffers[index]), ok)]
    {
      buffers[index] := Begin(buffers[index], ok);
      r := if ok then Ok(()) else Err(BeginFailed);
    }

    method EndCommandBuffer(index: nat, ok: bool) returns (r: Result<(), PoolError>)
      requires index < buffers.Length
      modifies buffers
      ensures r.Ok? <==> ok
      ensures r.Err? ==> r.error == EndFailed
      ensures buffers[..] == old(buffers[..])[index := End(old(buffers[index]), ok)]
    {
      buffers[index] := End(buffers[index], ok);
      r := if ok then Ok(()) else Err(EndFailed);
    }

    /** Records one command into buffer `index` (the vkCmd* calls). */
    method Record(index: nat, c: Command)
      requires index < buffers.Length
      modifies buffers
      ensures buffers[..] == old(buffers[..])[index := Append(old(buffers[index]), c)]
    {
      buffers[index] := Append(buffers[index], c);
    }

    /** begin_render_pass: the render area is the whole extent from (0,0),
        with one clear value and inline contents. The clear colour is a float
        and is not modelled. */
    method BeginRenderPass(index: nat, renderPass: RenderPassHandle, framebuffer: Framebuffers.Framebuffer,
                           extent: Extent2D)
      requires index < buffers.Length
      modifies buffers
      ensures buffers[..] == old(buffers[..])[index := Append(old(buffers[index]),
        CmdBeginRenderPass(renderPass, framebuffer, Rect2D(Offset2D(0, 0), extent), 1, Inline))]
    {
      Record(index, CmdBeginRenderPass(renderPass, framebuffer, Rect2D(Offset2D(0, 0), extent), 1, Inline));
    }

    method EndRenderPass(index: nat)
      requires index < buffers.Length
      modifies buffers
      ensures buffers[..] == old(buffers[..])[index := Append(old(buffers[index]), CmdEndRenderPass)]
    {
      Record(index, CmdEndRenderPass);
    }

    /** draw: the given counts, first vertex 0 and first instance 0. */
    method Draw(index: nat, vertexCount: U32, instanceCount: U32)
      requires index < buffers.Length
      modifies buffers
      ensures buffers[..] == old(buffers[..])[index := Append(old(buffers[index]), CmdDraw(vertexCount, instanceCount, 0, 0))]
    {
      Record(index, CmdDraw(vertexCount, instanceCount, 0, 0));
    }

    /** VulkanPipeline::bind: binds the pipeline at the graphics bind point
        of buffer `index`. */
    method BindPipeline(index: nat, pipeline: Pipeline.VulkanPipeline)
      requires index < buffers.Length
      modifies buffers
      ensures buffers[..] == old(buffers[..])[index := Append(old(buffers[index]), CmdBindPipeline(Graphics, pipeline.handle))]
    {
      Record(index, CmdBindPipeline(Graphics, pipeline.handle));
    }

    /** The effect of a submission on buffer `index`. */
    method MarkSubmitted(index: nat, slot: nat, ok: bool)
      requires index < buffers.Length
      modifies buffers
      ensures buffers[..] == old(buffers[..])[index := Submit(old(buffers[index]), slot, ok)]
    {
      buffers[index] := Submit(buffers[index], slot, ok);
    }

    /** The effect of observing the fence of `slot` signalled: every buffer
        pending on it completes. */
    method RetireFence(slot: nat)
      modifies buffers
      ensures buffers[..] == RetireAll(old(buffers[..]), slot)
    {
      forall j | 0 <= j < buffers.Length {
        buffers[j] := Retire(buffers[j], slot);
      }
    }
  }

  /** Retire applied to every buffer of a pool. */
  function RetireAll(bs: seq<CommandBuffer>, slot: nat): (r: seq<CommandBuffer>)
    ensures |r| == |bs|
    ensures forall j :: 0 <= j < |bs| ==> r[j] == Retire(bs[j], slot)
  {
    seq(|bs|, j requires 0 <= j < |bs| => Retire(bs[j], slot))
  }

  /** After a retire no buffer is pending on that slot, and no buffer changes
      its slot. */
  lemma RetireAllClearsSlot(bs: seq<CommandBuffer>, slot: nat)
    ensures forall j :: 0 <= j < |bs| ==> RetireAll(bs, slot)[j].state != Pending(slot)
    ensures forall j, f :: 0 <= j < |bs| && RetireAll(bs, slot)[j].state == Pending(f) ==> bs[j].state == Pending(f)
  {
  }

  /** Appending commands one at a time from the recording state. */
  function AppendAll(cb: CommandBuffer, cs: seq<Command>): (r: CommandBuffer)
    decreases |cs|
  {
    if |cs| == 0 then cb else AppendAll(Append(cb, cs[0]), cs[1..])
  }

  /** Recording a list of commands into a recording buffer keeps it recording
      and appends exactly that list, in order; into a buffer that is not
      recording it leaves it invalid with its old commands. */
  lemma {:induction false} AppendAllRecords(cb: CommandBuffer, cs: seq<Command>)
    ensures cb.state == Recording ==>
      AppendAll(cb, cs).state == Recording && AppendAll(cb, cs).commands == cb.commands + cs
    ensures cb.state != Recording && |cs| > 0 ==>
      AppendAll(cb, cs).state == Invalid && AppendAll(cb, cs).commands == cb.commands
    decreases |cs|
  {
    if |cs| > 0 {
      AppendAllRecords(Append(cb, cs[0]), cs[1..]);
      if cb.state == Recording {
        assert cb.commands + [cs[0]] + cs[1..] == cb.commands + cs;
      } else if |cs| > 1 {
        assert Append(cb, cs[0]).state == Invalid;
      }
    }
  }

  /** The lifecycle of section 6.1 as the renderer drives it: reset, begin,
      record, end and submit take any buffer that is not pending to pending
      with exactly the recorded commands, and the fence completes it back to
      executable with the same commands. */
  lemma {:induction false} LifecycleRoundTrip(cb: CommandBuffer, cs: seq<Command>, slot: nat)
    ensures var recorded := End(AppendAll(Begin(Reset(cb, true), true), cs), true);
      recorded == CommandBuffer(Executable, cs) &&
      Submit(recorded, slot, true) == CommandBuffer(Pending(slot), cs) &&
      Retire(Submit(recorded, slot, true), slot) == recorded
  {
    AppendAllRecords(Begin(Reset(cb, true), true), cs);
  }
}
