/** The configuration rules of `Swapchain::new` and the teardown of `Swapchain::destroy`
    (src/gfx/vulkan/swapchain.rs). Vulkan's structures are plain records; the surface
    queries and the create calls are foreign, so their answers are parameters. */
module SwapchainConfig {
  import opened Ints
  import opened Wrappers

  datatype Extent2D = Extent2D(width: u32, height: u32)

  /** VkSurfaceTransformFlagBitsKHR. */
  datatype SurfaceTransform =
    | Identity | Rotate90 | Rotate180 | Rotate270
    | HorizontalMirror | HorizontalMirrorRotate90 | HorizontalMirrorRotate180 | HorizontalMirrorRotate270
    | Inherit

  /** The fields of VkSurfaceCapabilitiesKHR the rules read. */
  datatype SurfaceCapabilities = SurfaceCapabilities(
    minImageCount: u32,
    maxImageCount: u32,
    currentExtent: Extent2D,
    supportedTransforms: set<SurfaceTransform>,
    currentTransform: SurfaceTransform)

  /** VkPresentModeKHR. */
  datatype PresentMode = Immediate | Mailbox | Fifo | FifoRelaxed

  datatype Format = Format(code: nat)
  datatype ColorSpace = ColorSpace(code: nat)
  datatype SurfaceFormat = SurfaceFormat(format: Format, colorSpace: ColorSpace)

  datatype ImageUsage = ColorAttachment
  datatype SharingMode = Exclusive
  datatype CompositeAlpha = Opaque

  /** The VkSwapchainCreateInfoKHR that `Swapchain::new` builds. */
  datatype SwapchainCreateInfo = SwapchainCreateInfo(
    minImageCount: u32,
    imageColorSpace: ColorSpace,
    imageFormat: Format,
    imageExtent: Extent2D,
    imageUsage: ImageUsage,
    imageSharingMode: SharingMode,
    preTransform: SurfaceTransform,
    compositeAlpha: CompositeAlpha,
    presentMode: PresentMode,
    clipped: bool,
    imageArrayLayers: nat)

  /** A presentable image, and the view `Swapchain::new` creates for it (2D, the
      swapchain's format, identity swizzle, colour aspect, one mip level, one layer). */
  datatype Image = Image(handle: nat)
  datatype ImageView = ImageView(image: Image, format: Format)

  datatype Swapchain = Swapchain(handle: nat, presentImages: seq<Image>, presentImageViews: seq<ImageView>)

  /** A destruction call issued by `destroy`. */
  datatype DestroyCall = DestroyImageView(view: ImageView) | DestroySwapchain(handle: nat)

  /** One more image than the minimum, capped by a positive maximum (0 means no cap).
      The `+ 1` is u32 arithmetic, so the minimum must be below u32::MAX. */
  function ImageCount(minCount: u32, maxCount: u32): (n: u32)
    requires minCount as int < U32_MAX
    ensures n as int <= minCount as int + 1
    ensures maxCount > 0 ==> n <= maxCount
    ensures n as int == minCount as int + 1 || (maxCount > 0 && n == maxCount)
    ensures n >= 1
  {
    var target := minCount + 1;
    if maxCount > 0 && target > maxCount then maxCount else target
  }

  /** The count never drops below the driver's minimum when the maximum, if any, is
      at least that minimum (as Vulkan guarantees). */
  lemma ImageCountAtLeastMin(minCount: u32, maxCount: u32)
    requires minCount as int < U32_MAX
    requires maxCount == 0 || maxCount >= minCount
    ensures ImageCount(minCount, maxCount) >= minCount
    ensures maxCount == 0 || maxCount > minCount ==> ImageCount(minCount, maxCount) as int == minCount as int + 1
  {
  }

  /** A current width of u32::MAX means "undefined": the window's size is used. Only
      the width is tested. */
  function ChooseExtent(current: Extent2D, windowSize: Extent2D): (e: Extent2D)
    ensures current.width as int == U32_MAX ==> e == windowSize
    ensures current.width as int != U32_MAX ==> e == current
  {
    if current.width as int == U32_MAX then windowSize else current
  }

  /** IDENTITY when supported, otherwise the current transform. */
  function ChooseTransform(supported: set<SurfaceTransform>, current: SurfaceTransform): (t: SurfaceTransform)
    ensures t == Identity <==> Identity in supported || current == Identity
    ensures t in supported || t == current
    ensures Identity !in supported ==> t == current
  {
    if Identity in supported then Identity else current
  }

  /** `present_modes.iter().find(|m| m == MAILBOX).unwrap_or(FIFO)`. */
  function ChoosePresentMode(modes: seq<PresentMode>): (m: PresentMode)
    ensures m == Mailbox <==> Mailbox in modes
    ensures m != Mailbox ==> m == Fifo
    decreases |modes|
  {
    if modes == [] then Fifo
    else if modes[0] == Mailbox then Mailbox
    else ChoosePresentMode(modes[1..])
  }

  /** Element 0 of the reported formats; indexing an empty list panics. */
  function FirstFormat(formats: seq<SurfaceFormat>): (r: Result<SurfaceFormat>)
    ensures formats == [] <==> r.Err?
    ensures r.Ok? ==> r.value == formats[0]
  {
    if formats == [] then Err(Panic("index out of bounds: the len is 0 but the index is 0"))
    else Ok(formats[0])
  }

  /** The create info `Swapchain::new` passes to `create_swapchain`, from the surface's
      reported formats, capabilities and present modes and the window's size. */
  function CreateInfo(formats: seq<SurfaceFormat>, caps: SurfaceCapabilities,
                      modes: seq<PresentMode>, windowSize: Extent2D): (r: Result<SwapchainCreateInfo>)
    ensures r.Ok? <==> formats != [] && caps.minImageCount as int < U32_MAX
    ensures r.Ok? ==>
      && r.value.imageFormat == formats[0].format
      && r.value.imageColorSpace == formats[0].colorSpace
      && r.value.minImageCount == ImageCount(caps.minImageCount, caps.maxImageCount)
      && r.value.imageExtent == ChooseExtent(caps.currentExtent, windowSize)
      && r.value.preTransform == ChooseTransform(caps.supportedTransforms, caps.currentTransform)
      && r.value.presentMode == (if Mailbox in modes then Mailbox else Fifo)
      && r.value.clipped && r.value.imageArrayLayers == 1
  {
    match FirstFormat(formats)
    case Err(e) => Err(e)
    case Ok(surfaceFormat) =>
      if caps.minImageCount as int == U32_MAX then Err(Panic("attempt to add with overflow"))
      else
        Ok(SwapchainCreateInfo(
          ImageCount(caps.minImageCount, caps.maxImageCount),
          surfaceFormat.colorSpace,
          surfaceFormat.format,
          ChooseExtent(caps.currentExtent, windowSize),
          ColorAttachment,
          Exclusive,
          ChooseTransform(caps.supportedTransforms, caps.currentTransform),
          Opaque,
          ChoosePresentMode(modes),
          true,
          1))
  }

  /** The `map`/`collect` over the presentable images: one view per image, in order. */
  function MakeViews(images: seq<Image>, format: Format): (views: seq<ImageView>)
    ensures |views| == |images|
    ensures forall i :: 0 <= i < |images| ==> views[i].image == images[i] && views[i].format == format
    decreases |images|
  {
    if images == [] then []
    else [ImageView(images[0], format)] + MakeViews(images[1..], format)
  }

  /** `Swapchain::new`: the created swapchain, its images as `get_swapchain_images`
      reports them, and a view of each. */
  function NewSwapchain(info: SwapchainCreateInfo, handle: nat, images: seq<Image>): (s: Swapchain)
    ensures s.handle == handle && s.presentImages == images
    ensures |s.presentImageViews| == |images|
    ensures forall i :: 0 <= i < |images| ==>
      s.presentImageViews[i] == ImageView(images[i], info.imageFormat)
  {
    Swapchain(handle, images, MakeViews(images, info.imageFormat))
  }

  /** `destroy`: every image view, in order, then the swapchain last. */
  method Destroy(s: Swapchain) returns (calls: seq<DestroyCall>)
    ensures |calls| == |s.presentImageViews| + 1
    ensures forall i :: 0 <= i < |s.presentImageViews| ==> calls[i] == DestroyImageView(s.presentImageViews[i])
    ensures calls[|calls| - 1] == DestroySwapchain(s.handle)
  {
    calls := [];
    for i := 0 to |s.presentImageViews|
      invariant |calls| == i
      invariant forall j :: 0 <= j < i ==> calls[j] == DestroyImageView(s.presentImageViews[j])
    {
      calls := calls + [DestroyImageView(s.presentImageViews[i])];
    }
    calls := calls + [DestroySwapchain(s.handle)];
  }

  /** For a swapchain built by `NewSwapchain` over distinct images, the calls of
      `destroy` destroy the swapchain once, after every view; they destroy the view of
      every image, and nothing twice. */
  lemma DestroyOrder(info: SwapchainCreateInfo, handle: nat, images: seq<Image>, calls: seq<DestroyCall>)
    requires var s := NewSwapchain(info, handle, images);
      && |calls| == |s.presentImageViews| + 1
      && (forall i :: 0 <= i < |s.presentImageViews| ==> calls[i] == DestroyImageView(s.presentImageViews[i]))
      && calls[|calls| - 1] == DestroySwapchain(s.handle)
    requires forall i, j :: 0 <= i < j < |images| ==> images[i] != images[j]
    ensures forall i :: 0 <= i < |calls| && calls[i].DestroySwapchain? ==> i == |calls| - 1
    ensures forall i, j :: 0 <= i < j < |calls| ==> calls[i] != calls[j]
    ensures forall k :: 0 <= k < |images| ==> DestroyImageView(ImageView(images[k], info.imageFormat)) in calls
  {
    var s := NewSwapchain(info, handle, images);
    forall k | 0 <= k < |images|
      ensures DestroyImageView(ImageView(images[k], info.imageFormat)) in calls
    {
      assert calls[k] == DestroyImageView(s.presentImageViews[k]);
    }
  }
}
