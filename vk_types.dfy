/** Value types shared by every part of the renderer model: results, extents,
    rectangles, the Vulkan enumerations the renderer uses, and symbolic handles.

    Vulkan object handles are opaque numbers handed out by the driver. The model
    names each object by the role it plays instead (the image-available
    semaphore of slot 2, the view of image 5, ...), so that identity facts such
    as "the semaphore acquire signals is the one the submission waits on" can be
    stated and proved. */
module VkTypes {

  /** The largest value of a 32-bit unsigned integer (Rust's u32::MAX). */
  const U32Max: nat := 0xFFFF_FFFF

  datatype Option<+T> = None | Some(value: T)

  datatype Result<+T, +E> = Ok(value: T) | Err(error: E)

  /** A u32 value. */
  type U32 = x: nat | x <= U32Max

  datatype Extent2D = Extent2D(width: U32, height: U32)
  datatype Offset2D = Offset2D(x: int, y: int)
  datatype Rect2D = Rect2D(offset: Offset2D, extent: Extent2D)

  /** VkFormat and VkColorSpaceKHR are integer enumerations; the model keeps the
      numeric codes so that any value a surface reports can be represented. */
  type Format = nat
  const FormatR8G8B8A8Srgb: Format := 43
  const FormatB8G8R8A8Unorm: Format := 44
  const FormatB8G8R8A8Srgb: Format := 50
  type ColorSpace = nat
  const ColorSpaceSrgbNonlinear: ColorSpace := 0

  datatype SurfaceFormat = SurfaceFormat(format: Format, colorSpace: ColorSpace)

  /** VkPresentModeKHR codes. */
  type PresentMode = nat
  const PresentModeImmediate: PresentMode := 0
  const PresentModeMailbox: PresentMode := 1
  const PresentModeFifo: PresentMode := 2
  const PresentModeFifoRelaxed: PresentMode := 3

  /** Where a pipeline or subpass binds. */
  datatype BindPoint = Graphics | Compute

  /** Pipeline stages the renderer names. */
  datatype PipelineStage = ColorAttachmentOutput | TopOfPipe | BottomOfPipe

  /** Symbolic handles of the objects the renderer creates. */
  datatype SemaphoreRole = ImageAvailable | RenderFinished
  datatype Semaphore = SemaphoreId(role: SemaphoreRole, slot: nat)
  datatype Fence = FenceId(slot: nat)
  datatype CommandBufferHandle = CommandBufferId(index: nat)
  datatype Image = ImageId(index: nat)
  datatype ImageView = ImageViewOf(image: Image, format: Format)
  datatype RenderPassHandle = RenderPassId(id: nat)
  datatype PipelineHandle = PipelineId(id: nat)
  datatype QueueHandle = QueueOf(family: nat, index: nat)
}
