# Vulkan frame loop: a Dafny model

This project models a small Rust/Vulkan renderer (`ash` bindings): device
selection and queue-family discovery, logical-device creation, the swapchain choices,
the render pass, the framebuffers, the command pool and its command buffers, the
per-frame synchronisation objects, the graphics-pipeline builder, and the renderer's
`draw_frame` loop that ties them together.

Every Vulkan call is an input to the model, not an effect: a boolean says whether a
creation or submission succeeded, an `Option` carries a query's answer (None for a
failed query), and `failAt` names the first creation call in a loop that fails.
Handles are symbolic and named by their role: semaphore `SemaphoreId(role, slot)`,
fence `FenceId(slot)`, command buffer `CommandBufferId(i)`, queue `QueueOf(family, index)`.
Panics in the source (`unwrap`, indexing out of range, a `u32` addition that overflows,
which panics in a debug build; a release build wraps, and the model excludes those inputs too)
become preconditions. Early returns through `?` become `Err` results.

Module by module:

- `VkTypes` holds the shared values: handles, extents, formats, `Option`, `Result`.
- `PhysicalDevice` rates devices, selects the best one and scans queue families.
  It also checks device extensions.
- `LogicalDevice` covers the extension gate, one queue-create info per distinct family,
  and the optional queues.
- `Swapchain` chooses the surface format, present mode, extent and image count.
  It also creates one image view per image.
- `RenderPass` describes the single-subpass colour render pass and proves properties
  of that descriptor.
- `Framebuffers` builds one framebuffer per image view.
- `CommandPool` follows the command-buffer lifecycle of section 6.1 ("Command Buffer
  Lifecycle") of the Vulkan 1.3 specification: Initial, Recording, Executable,
  Pending (on the fence of a frame slot) and Invalid.
  - Each buffer's transitions are pure functions.
  - Class `VulkanCommandPool` keeps the buffers in an `array`. Its methods update
    one entry.
- `Sync` (class `VulkanSyncObjects`) holds one image-available semaphore,
  render-finished semaphore and in-flight fence per frame slot. The fence states
  follow section 7.3 ("Fences"): a fence is created signalled, a reset unsignals it,
  and a successful wait leaves it signalled.
- `Pipeline`:
  - The builder is a record value. Each setter returns it with one field replaced or
    one list extended, and leaves every other field alone.
  - `Build` checks render pass, extent and shader stages, in that order, then
    assembles the create info.
- `Frames` states one `draw_frame` as a function `Step` on an abstract device state:
  the current slot, each slot's fence, each command buffer's state and contents, and
  the queue operations accepted so far. `Run` chains steps.
- `Renderer` holds the classes. `VulkanRenderer` owns the current frame counter, and
  `DeviceQueues` logs what the queues accepted. `DrawFrame` performs the calls in the
  source's order on the sync objects, the pool and the queues. It is proved to leave
  them exactly in the state `Frames.Step` describes.

The model proves the following about the frame loop:

- A successful frame:
  - resets its slot's fence;
  - leaves its command buffer pending on that fence, holding exactly the six render
    commands;
  - issues acquire, submit and present, in that order. Each passes its semaphore on
    to the next, and distinct slots share no semaphore or fence.
- Successive successful frames cycle through the slots modulo the number of frames in
  flight.
- A suboptimal acquire or present is treated like an optimal one.
- A failure after the fence reset leaves that fence unsignalled with no work pending
  on it.
- The command buffer is chosen by the acquired image index while the fence belongs to
  the frame slot. So the loop can re-record a command buffer that is still pending on
  another slot's fence. Choosing the buffer by frame slot (`DrawFrameSlotIndexed`)
  never does (see Findings).

Behaviour of the code that the model keeps as it is, even where a different choice would be safer:

- `draw_frame` waits on the fence before acquiring the image.
- It records into the command buffer of the acquired image, not of the frame slot.
- An empty surface-format list panics at `available_formats[0]`, so it is a
  precondition.
- With no present modes the choice falls back to FIFO.
- The image count is `min + 1`, capped at the maximum only when one is reported; it is
  never raised to the minimum.
- The frame counter is stored already reduced modulo the number of frames in flight.

## Model

| member | source | states |
|---|---|---|
| PhysicalDevice.RateDevice | src/vulkan/physical_device.rs:64-87 | the returned u32 is the device's score (1000 discrete or 500 integrated, plus the largest 2D image dimension, plus 100 for geometry and 50 for tessellation shaders) and lies between that dimension and that dimension plus 1150 |
| PhysicalDevice.DiscreteOutranksIntegrated | src/vulkan/physical_device.rs:70-75 | all else equal, a discrete GPU outranks an integrated one, and an integrated one outranks every other device type |
| PhysicalDevice.ZeroScoreIff | src/vulkan/physical_device.rs:64-87 | a score is zero exactly for a device that is neither discrete nor integrated, has no 2D image dimension and lacks both optional shader features |
| PhysicalDevice.SelectBestDevice | src/vulkan/physical_device.rs:15-62 | no devices is one error; all scores zero is the other (both iff); otherwise the chosen device has a positive, maximal score and every earlier device scores strictly less (ties go to the first) |
| PhysicalDevice.LastIndexWhereSpec | src/vulkan/physical_device.rs:102-120 | the scan's "overwrite on every match" leaves None iff no family matches, else the largest matching index |
| PhysicalDevice.GraphicsFlags | src/vulkan/physical_device.rs:105-107 | entry i says whether family i supports graphics |
| PhysicalDevice.ComputeFlags | src/vulkan/physical_device.rs:109-111 | entry i says whether family i supports compute |
| PhysicalDevice.TransferFlags | src/vulkan/physical_device.rs:113-115 | entry i says whether family i supports transfer |
| PhysicalDevice.SupportFlags | src/vulkan/physical_device.rs:117-119 | entry i says whether family i can present to the surface |
| PhysicalDevice.LastIndexWhereSnoc | src/vulkan/physical_device.rs:102-120 | extending the scan by one family changes the result exactly when that family matches |
| PhysicalDevice.FindQueueFamilies | src/vulkan/physical_device.rs:89-128 | the loop fails iff some surface-support query fails; otherwise each family index is the last family with that capability |
| PhysicalDevice.FamiliesCompleteIff | src/vulkan/physical_device.rs:164-166 | the indices are complete exactly when some family supports graphics and some family can present |
| PhysicalDevice.AllAvailable | src/vulkan/physical_device.rs:138-149 | true iff every required extension name is among the available ones |
| PhysicalDevice.CheckDeviceExtensionSupport | src/vulkan/physical_device.rs:130-152 | a failed enumeration is an error; otherwise true iff every required name is available |
| LogicalDevice.RequiredDeviceExtensions | src/vulkan/device.rs:98-100 | exactly one extension, VK_KHR_swapchain |
| LogicalDevice.UniqueQueueFamilies | src/vulkan/device.rs:33-47 | the set holds exactly the families the indices name |
| LogicalDevice.InfoFamiliesMembership | src/vulkan/device.rs:49-56 | a family is covered by the create infos iff some info names it |
| LogicalDevice.InfoFamiliesSnoc | src/vulkan/device.rs:49-56 | appending an info adds its family, and keeps the families distinct when it is new |
| LogicalDevice.QueueCreateInfos | src/vulkan/device.rs:49-56 | one info per family of the set, no family twice, each requesting one queue |
| LogicalDevice.QueueFor | src/vulkan/device.rs:76-86 | an optional family maps to queue 0 of that family, and None to None |
| LogicalDevice.New | src/vulkan/device.rs:18-96 | extension query failure, missing swapchain extension and vkCreateDevice failure are distinct errors, checked in that order; Ok iff the query succeeds, lists VK_KHR_swapchain and device creation succeeds; on success the graphics, compute, transfer and present queues are queue 0 of their families (None for an absent family), the create infos cover each named family once, and VK_KHR_swapchain is enabled |
| Swapchain.FindPreferredFormat | src/vulkan/swapchain.rs:84-90 | finds B8G8R8A8_SRGB with sRGB non-linear colour space iff it is offered |
| Swapchain.ChooseSurfaceFormat | src/vulkan/swapchain.rs:78-93 | the chosen format is offered; it is the preferred one when that is offered, else the first one |
| Swapchain.ChooseSurfaceFormatScenarios | src/vulkan/swapchain.rs:78-93 | the preferred format wins even when listed second; without it the first entry is chosen |
| Swapchain.FindMailbox | src/vulkan/swapchain.rs:101-105 | finds MAILBOX iff it is offered |
| Swapchain.ChoosePresentMode | src/vulkan/swapchain.rs:95-108 | MAILBOX iff offered, otherwise FIFO |
| Swapchain.Clamp | src/vulkan/swapchain.rs:121-128 | the result lies in [lo, hi], equals v inside it and the nearer bound outside it |
| Swapchain.ChooseExtent | src/vulkan/swapchain.rs:110-132 | the surface's current extent unless its width is u32::MAX; then, per dimension, the window size when within the surface's bounds, the minimum when below, the maximum when above |
| Swapchain.ChooseExtentClampsOversizedWindow | src/vulkan/swapchain.rs:110-132 | a 10000x10000 window on a surface that leaves the extent to the application, with bounds 1x1 to 4096x4096, gets 4096x4096 |
| Swapchain.ImageCount | src/vulkan/swapchain.rs:34-38 | min + 1 unless a nonzero maximum is smaller, then the maximum; never above a reported maximum, never below the minimum when the bounds are consistent |
| Swapchain.CreateImageViews | src/vulkan/swapchain.rs:134-166 | fails iff some view creation fails, with that image's index; otherwise one view per image in order, each of that image in the given format |
| Swapchain.New | src/vulkan/swapchain.rs:18-76 | each failing surface query gives its own error in order; success carries the chosen format, present mode, extent and image count and one view per image; failure after the queries means the driver refused creation, the image query or a view |
| RenderPass.Describe | src/vulkan/render_pass.rs:13-43 | the descriptor new submits: one attachment, in the swapchain's format, one subpass, one dependency |
| RenderPass.DescribeProperties | src/vulkan/render_pass.rs:13-55 | one single-sampled colour attachment in the swapchain format, cleared, stored and ended in PRESENT_SRC, stencil DONT_CARE on load and store; one graphics subpass writing it; one dependency from outside the pass with colour-output stage masks on both sides, no source access and colour-write destination access, guarding the first colour write |
| RenderPass.New | src/vulkan/render_pass.rs:13-55 | succeeds iff vkCreateRenderPass does, carrying that descriptor |
| Framebuffers.New | src/vulkan/framebuffers.rs:13-39 | fails iff some creation fails, with its index; otherwise framebuffer i is built from image view i, the render pass and the extent, one layer |
| Framebuffers.SharedRenderPass | src/vulkan/framebuffers.rs:13-39 | all framebuffers built that way share one render pass |
| CommandPool.Reset | src/vulkan/command_pool.rs:86-96 | a successful reset returns the buffer to Initial with no commands; a failed one changes nothing |
| CommandPool.Begin | src/vulkan/command_pool.rs:59-72 | a successful begin enters Recording with no commands; a failed one changes nothing |
| CommandPool.End | src/vulkan/command_pool.rs:74-84 | End makes the buffer Executable exactly when it was Recording and the call succeeds, else Invalid; commands are kept |
| CommandPool.Append | src/vulkan/command_pool.rs:98-146 | recording a command appends it when Recording, and otherwise invalidates the buffer |
| CommandPool.Submit | src/renderer/renderer.rs:162-169 | a successful submission makes an executable buffer Pending on the slot's fence; a failed one changes nothing |
| CommandPool.Retire | src/vulkan/sync.rs:69-79 | the fence's completion returns a buffer pending on it to Executable and leaves every other buffer unchanged |
| CommandPool.AllocatedCount | src/vulkan/command_pool.rs:32-35 | the count cast to u32 fits in 32 bits and equals the request whenever the request fits |
| CommandPool.VulkanCommandPool.GetCommandBuffer | src/vulkan/command_pool.rs:51-53 | the handle of buffer index |
| CommandPool.VulkanCommandPool.BufferCount | src/vulkan/command_pool.rs:55-57 | the number of allocated buffers |
| CommandPool.VulkanCommandPool.New | src/vulkan/command_pool.rs:14-49 | pool creation failure, then allocation failure, as errors; on success a resettable pool on the graphics family with the u32-cast count of fresh buffers |
| CommandPool.VulkanCommandPool.ResetCommandBuffer | src/vulkan/command_pool.rs:86-96 | Ok iff the call succeeds; only buffer index changes, by Reset |
| CommandPool.VulkanCommandPool.BeginCommandBuffer | src/vulkan/command_pool.rs:59-72 | Ok iff the call succeeds; only buffer index changes, by Begin |
| CommandPool.VulkanCommandPool.EndCommandBuffer | src/vulkan/command_pool.rs:74-84 | Ok iff the call succeeds; only buffer index changes, by End |
| CommandPool.VulkanCommandPool.Record | src/renderer/renderer.rs:121-133 | recording one command (the viewport and scissor the renderer sets directly) changes buffer index by Append and no other buffer |
| CommandPool.VulkanCommandPool.BeginRenderPass | src/vulkan/command_pool.rs:98-130 | appends begin-render-pass with that framebuffer and full-extent render area to buffer index only |
| CommandPool.VulkanCommandPool.EndRenderPass | src/vulkan/command_pool.rs:132-138 | appends end-render-pass to buffer index only |
| CommandPool.VulkanCommandPool.Draw | src/vulkan/command_pool.rs:140-146 | appends a draw of the given vertex and instance counts, first vertex and instance 0, to buffer index only |
| CommandPool.VulkanCommandPool.BindPipeline | src/pipeline/pipeline.rs:410-418 | appends a bind of the pipeline at the graphics bind point to buffer index only |
| CommandPool.VulkanCommandPool.MarkSubmitted | src/renderer/renderer.rs:162-169 | the submitted buffer moves by Submit; no other buffer changes |
| CommandPool.VulkanCommandPool.RetireFence | src/vulkan/sync.rs:69-79 | every buffer pending on that slot's fence becomes Executable; no other buffer changes |
| CommandPool.RetireAll | src/vulkan/sync.rs:69-79 | the completion of one fence applied to every buffer, lengths kept |
| CommandPool.RetireAllClearsSlot | src/vulkan/sync.rs:69-79 | after the wait no buffer is pending on that slot, and pending on another slot only if it already was |
| CommandPool.AppendAllRecords | src/vulkan/command_pool.rs:98-146 | recording a list into a recording buffer appends exactly that list; into any other buffer it leaves it invalid |
| CommandPool.LifecycleRoundTrip | src/renderer/renderer.rs:85-141 | reset, begin, record, end take any buffer to Executable with exactly the recorded commands; submit makes it pending and completion returns it unchanged |
| Sync.CreationError | src/vulkan/sync.rs:16-67 | the k-th creation call is the image-available semaphore, the render-finished semaphore or the fence of slot k/3, by k mod 3 |
| Sync.VulkanSyncObjects.New | src/vulkan/sync.rs:16-67 | fails iff one of the 3n creation calls fails, reporting that call's object; otherwise entry i of each vector is slot i's object and every fence starts signalled |
| Sync.VulkanSyncObjects.WaitForFence | src/vulkan/sync.rs:69-79 | Ok iff the wait succeeds; then that fence is signalled and no other fence changes |
| Sync.VulkanSyncObjects.ResetFence | src/vulkan/sync.rs:81-91 | Ok iff the reset succeeds; then that fence is unsignalled and no other fence changes |
| Sync.VulkanSyncObjects.GetFrameSyncObjects | src/vulkan/sync.rs:93-99 | the three objects of that slot |
| Sync.StoredObjectsDistinct | src/vulkan/sync.rs:16-67 | in the vectors a valid VulkanSyncObjects stores, distinct slots share no semaphore or fence, and no image-available semaphore is also a render-finished one |
| Pipeline.Builder.SetRenderPass | src/pipeline/pipeline.rs:90-93 | sets the render pass; every other field unchanged |
| Pipeline.Builder.SetExtent | src/pipeline/pipeline.rs:95-98 | sets the extent; every other field unchanged |
| Pipeline.Builder.WithDescriptorSetLayout | src/pipeline/pipeline.rs:100-103 | appends a layout; every other field unchanged |
| Pipeline.Builder.WithPushConstantRange | src/pipeline/pipeline.rs:105-108 | appends a range; every other field unchanged |
| Pipeline.Builder.WithVertexBinding | src/pipeline/pipeline.rs:133-136 | appends a binding; every other field unchanged |
| Pipeline.Builder.WithVertexAttribute | src/pipeline/pipeline.rs:138-141 | appends an attribute; every other field unchanged |
| Pipeline.Builder.WithTopology | src/pipeline/pipeline.rs:143-146 | sets the topology; every other field unchanged |
| Pipeline.Builder.WithPrimitiveRestart | src/pipeline/pipeline.rs:148-151 | sets primitive restart; every other field unchanged |
| Pipeline.Builder.WithViewport | src/pipeline/pipeline.rs:153-156 | sets the viewport; every other field unchanged |
| Pipeline.Builder.WithScissor | src/pipeline/pipeline.rs:158-161 | sets the scissor; every other field unchanged |
| Pipeline.Builder.WithDynamicStates | src/pipeline/pipeline.rs:163-166 | appends the states; every other field unchanged |
| Pipeline.Builder.WithPolygonMode | src/pipeline/pipeline.rs:168-171 | sets the polygon mode; every other field unchanged |
| Pipeline.Builder.WithCullMode | src/pipeline/pipeline.rs:173-176 | sets the cull mode; every other field unchanged |
| Pipeline.Builder.WithFrontFace | src/pipeline/pipeline.rs:178-181 | sets the front face; every other field unchanged |
| Pipeline.Builder.WithDepthClamp | src/pipeline/pipeline.rs:188-191 | sets depth clamp; every other field unchanged |
| Pipeline.Builder.WithMultisampling | src/pipeline/pipeline.rs:193-196 | sets the sample count; every other field unchanged |
| Pipeline.Builder.WithSampleShading | src/pipeline/pipeline.rs:198-201 | sets sample shading; every other field unchanged |
| Pipeline.Builder.WithDepthTest | src/pipeline/pipeline.rs:203-213 | sets test, write and compare op together; every other field unchanged |
| Pipeline.Builder.WithDepthBoundsTest | src/pipeline/pipeline.rs:215-218 | sets the depth-bounds test; every other field unchanged |
| Pipeline.Builder.WithStencilTest | src/pipeline/pipeline.rs:220-223 | sets the stencil test; every other field unchanged |
| Pipeline.Builder.WithColorBlendAttachment | src/pipeline/pipeline.rs:225-231 | appends an attachment; every other field unchanged |
| Pipeline.Builder.WithAlphaBlending | src/pipeline/pipeline.rs:233-250 | appends the source-alpha blend attachment; every other field unchanged |
| Pipeline.Builder.WithLogicOp | src/pipeline/pipeline.rs:252-256 | sets enable and op together; every other field unchanged |
| Pipeline.Builder.WithShaderSpv | src/pipeline/pipeline.rs:110-123 | fails iff the shader module cannot be created; otherwise appends the stage with its entry point (default "main"), every other field unchanged |
| Pipeline.Builder.WithVertexSpv | src/pipeline/pipeline.rs:125-127 | as with_shader_spv for a vertex stage entered at "main" |
| Pipeline.Builder.WithFragmentSpv | src/pipeline/pipeline.rs:129-131 | as with_shader_spv for a fragment stage entered at "main" |
| Pipeline.NewBuilder | src/pipeline/pipeline.rs:56-88 | no render pass, extent, viewport or scissor; every list empty; triangle lists without restart, filled polygons, back-face culling, clockwise front faces, one sample, every depth/stencil test off with compare op LESS, logic op COPY disabled |
| Pipeline.Describe | src/pipeline/pipeline.rs:277-378 | the create info carries the builder's lists in order, the explicit viewport and scissor or ones covering the extent, a depth-stencil state with the builder's settings iff some test is on, the dynamic states iff any, no rasterizer discard or depth bias, subpass 0 of the render pass |
| Pipeline.EntryPointOrMain | src/pipeline/pipeline.rs:117-120 | the given entry point, else "main" |
| Pipeline.StageInfos | src/pipeline/pipeline.rs:282-291 | one stage info per shader entry, in order, with its stage, module and name |
| Pipeline.Build | src/pipeline/pipeline.rs:263-398 | missing render pass, then missing extent, then no stages, are reported in that order; Ok iff all are present and layout and pipeline creation succeed; the pipeline's description is exactly `Describe(b)`, and so carries subpass 0, one stage per entry in insertion order, a depth-stencil state iff some depth/bounds/stencil test is on, dynamic state iff any was given, and the full-extent scissor by default |
| Pipeline.DefaultsReachThePipeline | src/pipeline/pipeline.rs:56-88 | a fresh builder with render pass, extent and a vertex shader builds a pipeline carrying every default of new |
| Pipeline.FreshBuilderFailsOnRenderPassFirst | src/pipeline/pipeline.rs:263-274 | a fresh builder fails on the render pass first, then on the extent |
| Pipeline.StagesKeepInsertionOrder | src/pipeline/pipeline.rs:282-291 | stages reach the pipeline in the order they were added |
| Pipeline.DepthSettersReachThePipeline | src/pipeline/pipeline.rs:203-223 | enabling any of the three tests yields a depth-stencil state carrying the builder's settings |
| Pipeline.DynamicStatesAccumulate | src/pipeline/pipeline.rs:163-166 | dynamic states from successive calls reach the pipeline concatenated in order |
| Pipeline.AlphaBlendingAppends | src/pipeline/pipeline.rs:233-250 | alpha blending appends one attachment blending by source alpha and keeps the earlier ones |
| Pipeline.ExplicitViewportAndScissorWin | src/pipeline/pipeline.rs:153-161 | an explicit viewport and scissor replace the full-extent defaults |
| Frames.TargetBuffer | src/renderer/renderer.rs:62-74 | the recorded buffer is the acquired image index as written, the frame slot when corrected |
| Frames.RenderCommands | src/renderer/renderer.rs:97-137 | six commands per frame: the render pass over framebuffer imageIndex and the whole extent, the pipeline bound at the graphics point, viewport, scissor over the extent, a draw of 3 vertices and 1 instance, the end of the pass |
| Frames.RecordFrame | src/renderer/renderer.rs:85-141 | recording succeeds iff reset, begin and end all succeed; a failed reset leaves the buffer as it was; recording never leaves a buffer newly pending |
| Frames.RecordFrameRecordsRenderCommands | src/renderer/renderer.rs:85-141 | recording succeeds iff reset, begin and end succeed; then the buffer is Executable holding exactly the render commands; each failure leaves its own buffer state and error |
| Frames.AcquireSemaphore | src/renderer/renderer.rs:44-45 | an image-available semaphore of an existing slot, that of the current slot whenever the counter is in range |
| Frames.SubmitOpOf | src/renderer/renderer.rs:150-169 | the submission of a slot goes to the graphics queue, waits on that slot's image-available semaphore, runs one buffer, and signals the slot's render-finished semaphore and fence |
| Frames.PresentOpOf | src/renderer/renderer.rs:182-195 | the presentation of a slot goes to the present queue, waits on that slot's render-finished semaphore, and presents the acquired image |
| Frames.RecordAndPresent | src/renderer/renderer.rs:62-82 | the second half of a frame succeeds iff recording, submission and presentation all succeed; only then does the counter advance modulo the slot count; fences untouched |
| Frames.Step | src/renderer/renderer.rs:32-83 | a frame succeeds iff every call succeeds; only success advances the counter, modulo the slot count; a failed wait changes nothing |
| Frames.SuccessfulStepResetsSlotFence | src/renderer/renderer.rs:42-60 | after a successful frame exactly its slot's fence is unsignalled |
| Frames.SuccessfulStepLeavesBufferPending | src/renderer/renderer.rs:42-76 | after a successful frame the buffers are those the wait retired, with the target buffer pending on the slot's fence holding the render commands |
| Frames.SuccessfulStepQueueOrder | src/renderer/renderer.rs:47-78 | a successful frame issues acquire, submit and present, in that order, and nothing else |
| Frames.RecordAndPresentLog | src/renderer/renderer.rs:71-78 | the second half of a successful frame issues submit then present |
| Frames.SlotSemaphoresChain | src/renderer/renderer.rs:143-198 | acquire signals what submit waits on at the colour-output stage; submit signals what present waits on and uses the slot's fence and one command buffer; distinct slots use disjoint objects |
| Frames.AcquireFailureKeepsFenceSignalled | src/renderer/renderer.rs:42-56 | a failed acquire returns before the reset, so the slot's fence stays signalled and the log unchanged |
| Frames.LateFailureOrphansFence | src/renderer/renderer.rs:60-78 | a failure after the reset leaves the slot's fence unsignalled with no buffer pending on it |
| Frames.SuboptimalIsIgnored | src/renderer/renderer.rs:47-56 | the suboptimal flags of acquire and present do not change the frame's outcome or state |
| Frames.Run | src/renderer/renderer.rs:32-83 | a run of draw_frame calls keeps the number of fences and buffers, and leaves the counter in range or where it started |
| Frames.Slots | src/renderer/renderer.rs:32-83 | one slot per frame of a run |
| Frames.AllSucceedTail | src/renderer/renderer.rs:32-83 | a run whose frames all succeed still does after its first frame |
| Frames.AllSucceedStep | src/renderer/renderer.rs:80 | a successful frame advances the counter by one modulo the slot count and keeps the run well defined |
| Frames.AllSucceedRunDefined | src/renderer/renderer.rs:32-83 | a run whose calls all succeed is well defined throughout |
| Frames.Rotation | src/renderer/renderer.rs:80 | the slot sequence starting at start: each slot is the previous plus one modulo n |
| Frames.AllSucceedSlots | src/renderer/renderer.rs:80 | the slots of a successful run, and the counter after it, follow that rotation |
| Frames.FirstFrameOfRun | src/renderer/renderer.rs:32-83 | a run is its first frame followed by the rest |
| Frames.SevenFramesCycleThroughThreeSlots | src/renderer/renderer.rs:28-80 | with three frames in flight, seven successful frames use slots 0,1,2,0,1,2,0 and leave the counter at 1 |
| Frames.ThreeSlotRotation | src/renderer/renderer.rs:80 | the first eight slots from 0 with three slots are 0,1,2,0,1,2,0,1 |
| Frames.InitialState | src/renderer/renderer.rs:20-30 | initially every fence is signalled and no buffer is pending |
| Frames.OwnSlotStep | src/renderer/renderer.rs:62-76 | when the buffer follows the slot, a frame never records into a pending buffer, and buffers stay pending only on their own slot's fence |
| Frames.FrameSlotIndexingNeverRecordsIntoPending | src/renderer/renderer.rs:62-76 | with buffers chosen by frame slot, no frame of any run records into a buffer still pending |
| Frames.ImageIndexingSafeWhenAcquiresMatchSlots | src/renderer/renderer.rs:62-76 | as written, a run is safe when every acquired image index equals the frame slot |
| Frames.ImageIndexingRecordsIntoPendingBuffer | src/renderer/renderer.rs:62-76 | as written, two frames both acquiring image 0 make the second re-record buffer 0 while it is still pending on fence 0; by slot the same run is safe |
| Renderer.DeviceQueues.constructor | src/renderer/renderer.rs:20-30 | no queue traffic yet |
| Renderer.DeviceQueues.AcquireNextImage | src/renderer/renderer.rs:47-56 | the image index on success, logging an acquire that signals the given semaphore; the acquire error otherwise, with nothing logged |
| Renderer.DeviceQueues.QueueSubmit | src/renderer/renderer.rs:162-169 | Ok iff accepted; the submission is logged iff accepted |
| Renderer.DeviceQueues.QueuePresent | src/renderer/renderer.rs:191-195 | Ok iff presented; the presentation is logged iff presented |
| Renderer.VulkanRenderer.constructor | src/renderer/renderer.rs:20-30 | slot 0 of three frames in flight |
| Renderer.VulkanRenderer.RecordCommandBuffer | src/renderer/renderer.rs:85-141 | the pool's buffer and the result are those RecordFrame gives; no other buffer changes |
| Renderer.VulkanRenderer.RecordRenderPass | src/renderer/renderer.rs:97-137 | appends exactly the six render commands to the recording buffer |
| Renderer.VulkanRenderer.SubmitCommandBuffer | src/renderer/renderer.rs:143-173 | Ok iff accepted; on success logs a submit of that buffer waiting on image-available at colour output, signalling render-finished with the slot's fence, and makes the buffer pending |
| Renderer.VulkanRenderer.PresentFrame | src/renderer/renderer.rs:175-198 | Ok iff presented; on success logs a present of that image waiting on render-finished |
| Renderer.VulkanRenderer.DrawFrame | src/renderer/renderer.rs:32-83 | the fences, buffers, log and counter after the call are exactly Step's next state as written, and the result is Step's outcome |
| Renderer.VulkanRenderer.DrawFrameSlotIndexed | src/renderer/renderer.rs:32-83 | the same with the buffer chosen by frame slot, the corrected form |
| Renderer.VulkanRenderer.DrawFrameIndexed | src/renderer/renderer.rs:32-83 | the same for either buffer choice |
| Renderer.VulkanRenderer.RecordSubmitPresent | src/renderer/renderer.rs:62-82 | the second half of draw_frame leaves exactly RecordAndPresent's state and outcome |

## Left out

- Console output (`println!`) and logging are not modelled.
- Floating-point state is not modelled:
  - the line width (`with_line_width`) and blend constants (`with_blend_constants`);
  - the viewport's float fields and depth range;
  - the clear colour passed to `begin_render_pass`.
  A viewport is an opaque identifier or "full extent".
- `Drop` implementations (destruction order, freeing command buffers) are not modelled.
- Shader SPIR-V is not modelled: the byte reinterpretation into words and the code
  itself are left out, and a shader-module creation is an input that succeeds or fails.
- Time-outs (`u64::MAX`) are not modelled: a wait, acquire or present either succeeds
  or fails.
- The instance, the surface, the window and the application entry point are not part
  of this model.
- The swapchain loader object is not part of this model.
- `VulkanDevice::wait_idle` (src/vulkan/device.rs:102-106) is not modelled; it has no
  state the model tracks.
- `enumerate_physical_devices` failing (src/vulkan/physical_device.rs:18) is not
  modelled: the device list is an input.
- The device properties, features and memory properties returned with the selected
  device are not modelled; the model returns its index.
- Swapchain.New: the surface capabilities are queried twice in the source (once in
  `choose_extent`, once for the image count); the model takes one answer for both.
- Swapchain.New: the swapchain's other create-info fields (usage, sharing mode,
  transform, composite alpha, clipping) are not modelled.
- Pipeline.Build: a shader module or layout is not destroyed when a later step fails,
  and that leak is not modelled; neither is the destruction of shader modules after
  creation.
- Framebuffers: `get_framebuffer` is modelled as sequence indexing, so an index out of
  range is a precondition rather than a panic.
- Renderer.VulkanRenderer.RecordCommandBuffer: the buffer index and the image index are
  separate parameters so that the corrected indexing can be stated; `draw_frame`
  passes the image index for both.
- CommandPool.VulkanCommandPool.RetireFence models the device completing the work
  submitted with a fence. In the model this happens when a wait on that fence succeeds,
  because the GPU is not modelled.
- Vulkan valid-usage rules beyond the command-buffer and fence states (image layouts
  over time, semaphore signal state, swapchain image ownership) are not tracked.

## Findings

| source | as written | input that shows it | evidently intended | confidence | as-written member | corrected member |
|---|---|---|---|---|---|---|
| src/renderer/renderer.rs:62-76 | `draw_frame` waits on and resets the fence of `current_frame`, but resets, records and submits the command buffer numbered by the acquired `image_index` | three frames in flight, three swapchain images; two successive frames that both succeed and both acquire image 0: the second waits on fence 1 only, then resets buffer 0 while it is still pending on fence 0 | the buffer a frame records into is guarded by the fence that frame waited on, i.e. indexed by `current_frame` | not executed | Frames.ImageIndexingRecordsIntoPendingBuffer | Frames.FrameSlotIndexingNeverRecordsIntoPending |
