/** Render-target negotiation (src/vulkan/swapchain.rs): the surface-format,
    present-mode and extent choices, the image count, and one image view per
    swapchain image. The surface queries and the driver calls are inputs: a
    query that fails is None, a driver call that fails is named by its
    position. Following the Window System Integration chapter of the Vulkan 1.3
    specification, a current extent whose width is 0xFFFFFFFF means the
    application chooses the extent. */
module Swapchain {
  import opened VkTypes

  /** The preferred surface format: 8-bit BGRA in sRGB encoding, non-linear sRGB colour space. */
  const PreferredFormat: SurfaceFormat := SurfaceFormat(FormatB8G8R8A8Srgb, ColorSpaceSrgbNonlinear)

  /** The first occurrence of the preferred format in a list, scanning in order. */
  function FindPreferredFormat(formats: seq<SurfaceFormat>): (found: Option<SurfaceFormat>)
    ensures found.Some? <==> PreferredFormat in formats
    ensures found.Some? ==> found.value == PreferredFormat
  {
    if |formats| == 0 then None
    else if formats[0].format == FormatB8G8R8A8Srgb && formats[0].colorSpace == ColorSpaceSrgbNonlinear
    then Some(formats[0])
    else FindPreferredFormat(formats[1..])
  }

  /** choose_surface_format: the preferred format if the surface lists it,
      otherwise the first listed format. An empty list panics on `[0]`. */
  function ChooseSurfaceFormat(available: seq<SurfaceFormat>): (chosen: SurfaceFormat)
    requires |available| > 0
    ensures chosen in available
    ensures PreferredFormat in available ==> chosen == PreferredFormat
    ensures PreferredFormat !in available ==> chosen == available[0]
  {
    match FindPreferredFormat(available)
    case Some(f) => f
    case None => available[0]
  }

  /** The scan is in listed order: the preferred format is picked even when it
      is listed second, and with no preferred entry the first entry is taken
      whatever it is. */
  lemma ChooseSurfaceFormatScenarios()
    ensures ChooseSurfaceFormat([SurfaceFormat(FormatR8G8B8A8Srgb, ColorSpaceSrgbNonlinear),
                                 SurfaceFormat(FormatB8G8R8A8Srgb, ColorSpaceSrgbNonlinear)])
            == SurfaceFormat(FormatB8G8R8A8Srgb, ColorSpaceSrgbNonlinear)
    ensures ChooseSurfaceFormat([SurfaceFormat(FormatR8G8B8A8Srgb, ColorSpaceSrgbNonlinear),
                                 SurfaceFormat(FormatB8G8R8A8Unorm, ColorSpaceSrgbNonlinear)])
            == SurfaceFormat(FormatR8G8B8A8Srgb, ColorSpaceSrgbNonlinear)
  {
  }

  /** The first MAILBOX entry of a list of present modes. */
  function FindMailbox(modes: seq<PresentMode>): (found: Option<PresentMode>)
    ensures found.Some? <==> PresentModeMailbox in modes
    ensures found.Some? ==> found.value == PresentModeMailbox
  {
    if |modes| == 0 then None
    else if modes[0] == PresentModeMailbox then Some(modes[0])
    else FindMailbox(modes[1..])
  }

  /** choose_present_mode: MAILBOX when listed, else FIFO, which is returned
      even when the list does not contain it. */
  function ChoosePresentMode(available: seq<PresentMode>): (mode: PresentMode)
    ensures mode == PresentModeMailbox || mode == PresentModeFifo
    ensures mode == PresentModeMailbox <==> PresentModeMailbox in available
  {
    match FindMailbox(available)
    case Some(m) => m
    case None => PresentModeFifo
  }

  datatype SurfaceCapabilities = SurfaceCapabilities(
    minImageCount: U32,
    maxImageCount: U32,
    currentExtent: Extent2D,
    minImageExtent: Extent2D,
    maxImageExtent: Extent2D)

  /** Rust's u32::clamp; it panics when lo > hi. */
  function Clamp(v: U32, lo: U32, hi: U32): (c: U32)
    requires lo <= hi
    ensures lo <= c <= hi
    ensures lo <= v <= hi ==> c == v
    ensures v < lo ==> c == lo
    ensures v > hi ==> c == hi
  {
    if v < lo then lo else if v > hi then hi else v
  }

  /** The extent bounds are usable by u32::clamp. */
  predicate ClampableBounds(caps: SurfaceCapabilities)
  {
    caps.minImageExtent.width <= caps.maxImageExtent.width &&
    caps.minImageExtent.height <= caps.maxImageExtent.height
  }

  /** choose_extent: the surface's current extent verbatim unless its width is
      the sentinel u32::MAX; then the window size clamped into the surface's
      bounds, width and height independently. */
  function ChooseExtent(caps: SurfaceCapabilities, windowWidth: U32, windowHeight: U32): (e: Extent2D)
    requires caps.currentExtent.width == U32Max ==> ClampableBounds(caps)
    ensures caps.currentExtent.width != U32Max ==> e == caps.currentExtent
    ensures caps.currentExtent.width == U32Max ==>
      caps.minImageExtent.width <= e.width <= caps.maxImageExtent.width &&
      caps.minImageExtent.height <= e.height <= caps.maxImageExtent.height &&
      (caps.minImageExtent.width <= windowWidth <= caps.maxImageExtent.width ==> e.width == windowWidth) &&
      (caps.minImageExtent.height <= windowHeight <= caps.maxImageExtent.height ==> e.height == windowHeight) &&
      (windowWidth < caps.minImageExtent.width ==> e.width == caps.minImageExtent.width) &&
      (windowWidth > caps.maxImageExtent.width ==> e.width == caps.maxImageExtent.width) &&
      (windowHeight < caps.minImageExtent.height ==> e.height == caps.minImageExtent.height) &&
      (windowHeight > caps.maxImageExtent.height ==> e.height == caps.maxImageExtent.height)
  {
    if caps.currentExtent.width != U32Max then caps.currentExtent
    else Extent2D(
      Clamp(windowWidth, caps.minImageExtent.width, caps.maxImageExtent.width),
      Clamp(windowHeight, caps.minImageExtent.height, caps.maxImageExtent.height))
  }

  /** A 10000x10000 window on a surface that leaves the extent to the
      application, with bounds 1x1 to 4096x4096, gets 4096x4096. */
  lemma ChooseExtentClampsOversizedWindow()
    ensures ChooseExtent(SurfaceCapabilities(2, 0, Extent2D(U32Max, U32Max), Extent2D(1, 1), Extent2D(4096, 4096)),
                         10000, 10000) == Extent2D(4096, 4096)
  {
  }

  /** The image count requested: one more than the minimum, lowered to the
      maximum when the maximum is non-zero and exceeded; a maximum of 0 means
      no limit. The `+ 1` on a u32 overflows (a debug-build panic) only when the
      minimum is u32::MAX. */
  function ImageCount(caps: SurfaceCapabilities): (n: U32)
    requires caps.minImageCount < U32Max
    ensures caps.maxImageCount == 0 || caps.minImageCount < caps.maxImageCount ==>
              n == caps.minImageCount + 1
    ensures 0 < caps.maxImageCount <= caps.minImageCount ==> n == caps.maxImageCount
    ensures caps.maxImageCount > 0 ==> n <= caps.maxImageCount
    ensures caps.maxImageCount >= caps.minImageCount ==> n >= caps.minImageCount
  {
    var count := caps.minImageCount + 1;
    if caps.maxImageCount > 0 && count > caps.maxImageCount then caps.maxImageCount else count
  }

  datatype SwapchainError =
    | FormatQueryFailed
    | PresentModeQueryFailed
    | CapabilitiesQueryFailed
    | SwapchainCreationFailed
    | ImageQueryFailed
    | ImageViewCreationFailed(image: nat)

  /** create_image_views: one view per image, in image order, each with the
      given format. failAt names the image whose view creation fails, if any;
      the first failure ends the loop with an error. */
  method CreateImageViews(images: seq<Image>, format: Format, failAt: Option<nat>)
    returns (r: Result<seq<ImageView>, SwapchainError>)
    ensures r.Err? <==> failAt.Some? && failAt.value < |images|
    ensures r.Err? ==> r.error == ImageViewCreationFailed(failAt.value)
    ensures r.Ok? ==> |r.value| == |images|
    ensures r.Ok? ==> forall i :: 0 <= i < |images| ==> r.value[i] == ImageViewOf(images[i], format)
  {
    var views: seq<ImageView> := [];
    var i := 0;
    while i < |images|
      invariant 0 <= i <= |images|
      invariant |views| == i
      invariant forall k :: 0 <= k < i ==> views[k] == ImageViewOf(images[k], format)
      invariant failAt.Some? ==> failAt.value >= i
    {
      if failAt == Some(i) {
        return Err(ImageViewCreationFailed(i));
      }
      views := views + [ImageViewOf(images[i], format)];
      i := i + 1;
    }
    r := Ok(views);
  }

  /** The surface's answers; None stands for a query that failed. */
  datatype SurfaceQueries = SurfaceQueries(
    formats: Option<seq<SurfaceFormat>>,
    presentModes: Option<seq<PresentMode>>,
    capabilities: Option<SurfaceCapabilities>)

  /** The swapchain driver calls: whether vkCreateSwapchainKHR succeeds, the
      images it reports (None: the query failed), and which view creation
      fails, if any. */
  datatype SwapchainDriver = SwapchainDriver(
    createOk: bool,
    images: Option<seq<Image>>,
    viewFailAt: Option<nat>)

  datatype VulkanSwapchain = VulkanSwapchain(
    images: seq<Image>,
    imageViews: seq<ImageView>,
    format: SurfaceFormat,
    extent: Extent2D,
    presentMode: PresentMode,
    minImageCount: U32)

  /** What VulkanSwapchain::new demands so as not to panic: a non-empty format
      list, clampable extent bounds when the application chooses the extent,
      and a minimum image count whose successor fits a u32. Each applies only
      once the queries before it have succeeded. */
  predicate NoPanic(surface: SurfaceQueries)
  {
    surface.formats.Some? ==>
      |surface.formats.value| > 0 &&
      (surface.presentModes.Some? && surface.capabilities.Some? ==>
         var caps := surface.capabilities.value;
         (caps.currentExtent.width == U32Max ==> ClampableBounds(caps)) &&
         caps.minImageCount < U32Max)
  }

  /** VulkanSwapchain::new: query, choose, create, then build the views. */
  method New(surface: SurfaceQueries, windowWidth: U32, windowHeight: U32, driver: SwapchainDriver)
    returns (r: Result<VulkanSwapchain, SwapchainError>)
    requires NoPanic(surface)
    ensures surface.formats.None? ==> r == Err(FormatQueryFailed)
    ensures surface.formats.Some? && surface.presentModes.None? ==> r == Err(PresentModeQueryFailed)
    ensures surface.formats.Some? && surface.presentModes.Some? && surface.capabilities.None? ==>
              r == Err(CapabilitiesQueryFailed)
    ensures r.Ok? ==>
      var sc := r.value;
      surface.formats.Some? && surface.presentModes.Some? && surface.capabilities.Some? &&
      driver.createOk && driver.images == Some(sc.images) &&
      sc.format == ChooseSurfaceFormat(surface.formats.value) &&
      sc.presentMode == ChoosePresentMode(surface.presentModes.value) &&
      sc.extent == ChooseExtent(surface.capabilities.value, windowWidth, windowHeight) &&
      sc.minImageCount == ImageCount(surface.capabilities.value) &&
      |sc.imageViews| == |sc.images| &&
      forall i :: 0 <= i < |sc.images| ==> sc.imageViews[i] == ImageViewOf(sc.images[i], sc.format.format)
    ensures r.Err? && surface.formats.Some? && surface.presentModes.Some? && surface.capabilities.Some? ==>
      !driver.createOk || driver.images.None? ||
      (driver.viewFailAt.Some? && driver.viewFailAt.value < |driver.images.value|)
  {
    if surface.formats.None? {
      return Err(FormatQueryFailed);
    }
    var surfaceFormat := ChooseSurfaceFormat(surface.formats.value);
    if surface.presentModes.None? {
      return Err(PresentModeQueryFailed);
    }
    var presentMode := ChoosePresentMode(surface.presentModes.value);
    if surface.capabilities.None? {
      return Err(CapabilitiesQueryFailed);
    }
    var caps := surface.capabilities.value;
    var extent := ChooseExtent(caps, windowWidth, windowHeight);
    var imageCount := ImageCount(caps);
    if !driver.createOk {
      return Err(SwapchainCreationFailed);
    }
    if driver.images.None? {
      return Err(ImageQueryFailed);
    }
    var images := driver.images.value;
    var views := CreateImageViews(images, surfaceFormat.format, driver.viewFailAt);
    if views.Err? {
      return Err(views.error);
    }
    r := Ok(VulkanSwapchain(images, views.value, surfaceFormat, extent, presentMode, imageCount));
  }
}
