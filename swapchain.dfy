/** Swapchain configuration and the swapchain's images, views and framebuffers. */
module Swapchain {
  import opened Wrappers
  import opened Vulkan
  import opened VulkanQueue

  const PreferredSurfaceFormat := SurfaceFormat(VK_FORMAT_B8G8R8A8_SRGB, VK_COLOR_SPACE_SRGB_NONLINEAR_KHR)

  /** The first format of `formats` equal to the preferred one, else `fallback`. */
  function FindPreferredFormat(formats: seq<SurfaceFormat>, fallback: SurfaceFormat): (r: SurfaceFormat)
    ensures PreferredSurfaceFormat in formats ==> r == PreferredSurfaceFormat
    ensures PreferredSurfaceFormat !in formats ==> r == fallback
  {
    if formats == [] then fallback
    else if formats[0].format == PreferredSurfaceFormat.format
         && formats[0].colorSpace == PreferredSurfaceFormat.colorSpace then formats[0]
    else FindPreferredFormat(formats[1..], fallback)
  }

  /** `ChooseSurfaceFormat`: the preferred (B8G8R8A8_SRGB, SRGB_NONLINEAR)
      format when it is offered, otherwise the first format offered. The list
      is indexed unconditionally, so it must not be empty. */
  function ChooseSurfaceFormat(available: seq<SurfaceFormat>): (r: SurfaceFormat)
    requires |available| > 0
    ensures r in available
    ensures PreferredSurfaceFormat in available ==> r == PreferredSurfaceFormat
    ensures PreferredSurfaceFormat !in available ==> r == available[0]
  {
    FindPreferredFormat(available, available[0])
  }

  /** `ChoosePresentMode`: MAILBOX when offered, otherwise FIFO, whether or
      not FIFO is in the list. */
  function ChoosePresentMode(available: seq<PresentMode>): (r: PresentMode)
    ensures r == VK_PRESENT_MODE_MAILBOX_KHR <==> VK_PRESENT_MODE_MAILBOX_KHR in available
    ensures r != VK_PRESENT_MODE_MAILBOX_KHR ==> r == VK_PRESENT_MODE_FIFO_KHR
  {
    if available == [] then VK_PRESENT_MODE_FIFO_KHR
    else if available[0] == VK_PRESENT_MODE_MAILBOX_KHR then available[0]
    else ChoosePresentMode(available[1..])
  }

  function Min(a: u32, b: u32): u32 { if b < a then b else a }
  function Max(a: u32, b: u32): u32 { if a < b then b else a }

  /** `std::max(lo, std::min(hi, x))`. */
  function Clamp(lo: u32, hi: u32, x: u32): (r: u32)
    ensures lo <= hi ==> lo <= r <= hi
    ensures lo <= x <= hi ==> r == x
    ensures hi < lo ==> r == lo
  {
    Max(lo, Min(hi, x))
  }

  /** Clamping a clamped value changes nothing, even when the bounds are
      inverted. */
  lemma ClampIdempotent(lo: u32, hi: u32, x: u32)
    ensures Clamp(lo, hi, Clamp(lo, hi, x)) == Clamp(lo, hi, x)
  {
  }

  /** `ChooseSwapExtent`: the surface's current extent unless its width is the
      `UINT32_MAX` sentinel (the height is not tested); then the window size
      clamped componentwise to the supported range. */
  function ChooseSwapExtent(caps: SurfaceCapabilities, windowWidth: u32, windowHeight: u32): (r: Extent2D)
    ensures caps.currentExtent.width != UINT32_MAX ==> r == caps.currentExtent
    ensures caps.currentExtent.width == UINT32_MAX ==>
              && r.width == Clamp(caps.minImageExtent.width, caps.maxImageExtent.width, windowWidth)
              && r.height == Clamp(caps.minImageExtent.height, caps.maxImageExtent.height, windowHeight)
    ensures caps.currentExtent.width == UINT32_MAX && caps.minImageExtent.width <= caps.maxImageExtent.width ==>
              caps.minImageExtent.width <= r.width <= caps.maxImageExtent.width
    ensures caps.currentExtent.width == UINT32_MAX && caps.minImageExtent.height <= caps.maxImageExtent.height ==>
              caps.minImageExtent.height <= r.height <= caps.maxImageExtent.height
  {
    if caps.currentExtent.width != UINT32_MAX then caps.currentExtent
    else
      var extents := Extent2D(windowWidth, windowHeight);
      Extent2D(Clamp(caps.minImageExtent.width, caps.maxImageExtent.width, extents.width),
               Clamp(caps.minImageExtent.height, caps.maxImageExtent.height, extents.height))
  }

  /** Choosing the extent again for a window of the chosen size gives the same
      extent. */
  lemma {:induction false} ChooseSwapExtentStable(caps: SurfaceCapabilities, windowWidth: u32, windowHeight: u32)
    ensures var e := ChooseSwapExtent(caps, windowWidth, windowHeight);
            ChooseSwapExtent(caps, e.width, e.height) == e
  {
    if caps.currentExtent.width == UINT32_MAX {
      ClampIdempotent(caps.minImageExtent.width, caps.maxImageExtent.width, windowWidth);
      ClampIdempotent(caps.minImageExtent.height, caps.maxImageExtent.height, windowHeight);
    }
  }

  /** A current extent whose height alone is the sentinel is returned as is. */
  lemma HeightSentinelNotTested(caps: SurfaceCapabilities, windowWidth: u32, windowHeight: u32)
    requires caps.currentExtent == Extent2D(800, UINT32_MAX)
    ensures ChooseSwapExtent(caps, windowWidth, windowHeight).height == UINT32_MAX
  {
  }

  /** The requested image count: one more than the minimum, in `uint32_t`
      arithmetic, lowered to the maximum when there is one (`maxImageCount`
      0 means no limit) and it is exceeded. */
  function ImageCount(caps: SurfaceCapabilities): (r: u32)
    ensures caps.maxImageCount > 0 ==> r <= caps.maxImageCount
    ensures caps.maxImageCount == 0 ==> r == (caps.minImageCount + 1) % 0x1_0000_0000
    ensures caps.minImageCount < caps.maxImageCount ==> r == caps.minImageCount + 1
    ensures 0 < caps.maxImageCount <= caps.minImageCount < UINT32_MAX ==> r == caps.maxImageCount
  {
    var imageCount: u32 := (caps.minImageCount + 1) % 0x1_0000_0000;
    if caps.maxImageCount > 0 && imageCount > caps.maxImageCount then caps.maxImageCount else imageCount
  }

  /** With the largest minimum the increment wraps to 0, which no maximum
      lowers further. */
  lemma ImageCountWraps(caps: SurfaceCapabilities)
    requires caps.minImageCount == UINT32_MAX
    ensures ImageCount(caps) == 0
  {
  }

  /** The sharing part of the swapchain create-info. */
  datatype Sharing = Sharing(mode: SharingMode, familyIndices: seq<u32>)

  /** Concurrent sharing between the two families when they differ,
      exclusive with no family list otherwise. Both families are read with
      `value()`, so both must be set. */
  function SharingConfig(indices: QueueFamilyIndices): (r: Sharing)
    requires indices.IsValid()
    ensures r.mode == Concurrent <==> indices.graphicsFamily.value != indices.presentFamily.value
    ensures r.mode == Concurrent ==> r.familyIndices == [indices.graphicsFamily.value, indices.presentFamily.value]
    ensures r.mode == Exclusive ==> r.familyIndices == []
    ensures |r.familyIndices| == (if r.mode == Concurrent then 2 else 0)
  {
    var queueFamilyIndices := [indices.graphicsFamily.value, indices.presentFamily.value];
    if indices.graphicsFamily != indices.presentFamily then Sharing(Concurrent, queueFamilyIndices)
    else Sharing(Exclusive, [])
  }

  /** The swapchain create-info built from one support query. */
  function SwapchainCreateInfo(surface: Handle, support: SupportDetails, indices: QueueFamilyIndices,
                               width: u32, height: u32): (r: Info)
    requires |support.formats| > 0
    requires indices.IsValid()
    ensures r.SwapchainInfo?
    ensures r.surface == surface && r.minImageCount == ImageCount(support.capabilities)
    ensures SurfaceFormat(r.format, r.colorSpace) == ChooseSurfaceFormat(support.formats)
    ensures SurfaceFormat(r.format, r.colorSpace) in support.formats
    ensures r.extent == ChooseSwapExtent(support.capabilities, width, height)
    ensures Sharing(r.sharing, r.familyIndices) == SharingConfig(indices)
    ensures r.preTransform == support.capabilities.currentTransform
    ensures r.presentMode == ChoosePresentMode(support.presentModes)
  {
    var surfaceFormat := ChooseSurfaceFormat(support.formats);
    var sharing := SharingConfig(indices);
    SwapchainInfo(surface, ImageCount(support.capabilities), surfaceFormat.format, surfaceFormat.colorSpace,
                  ChooseSwapExtent(support.capabilities, width, height), sharing.mode, sharing.familyIndices,
                  support.capabilities.currentTransform, ChoosePresentMode(support.presentModes))
  }

  /** The create-infos of the views of `images`, one per image, in order. */
  function ViewInfos(images: seq<Handle>, format: Format): (r: seq<Info>)
    ensures |r| == |images|
    ensures forall i {:trigger r[i]} :: 0 <= i < |images| ==> r[i] == ImageViewInfo(images[i], format)
  {
    seq(|images|, i requires 0 <= i < |images| => ImageViewInfo(images[i], format))
  }

  /** The create-infos of the framebuffers over `views`, one per view. */
  function FramebufferInfos(renderPass: Handle, views: seq<Handle>, extent: Extent2D): (r: seq<Info>)
    ensures |r| == |views|
    ensures forall i {:trigger r[i]} :: 0 <= i < |views| ==> r[i] == FramebufferInfo(renderPass, views[i], extent)
  {
    seq(|views|, i requires 0 <= i < |views| => FramebufferInfo(renderPass, views[i], extent))
  }

  class Swapchain {
    var handle: Handle
    var imageFormat: Format
    var extent: Extent2D
    var imageCount: u32
    var images: seq<Handle>
    var imageViews: seq<Handle>
    var frameBuffers: seq<Handle>

    constructor ()
      ensures handle == NullHandle && imageFormat == VK_FORMAT_UNDEFINED && extent == Extent2D(0, 0)
      ensures imageCount == 0 && images == [] && imageViews == [] && frameBuffers == []
    {
      handle, imageFormat, extent, imageCount := NullHandle, VK_FORMAT_UNDEFINED, Extent2D(0, 0), 0;
      images, imageViews, frameBuffers := [], [], [];
    }

    /** `Create`: the swapchain for one support query and window size, its
        images as the driver reports them, and one view per image. */
    method Create(gpu: Gpu, surface: Handle, support: SupportDetails, indices: QueueFamilyIndices,
                  width: u32, height: u32)
      requires gpu.Valid()
      requires |support.formats| > 0
      requires indices.IsValid()
      requires surface in gpu.live
      modifies this, gpu
      ensures gpu.Valid()
      ensures SwapchainBuilt(old(gpu.info), gpu.info, old(gpu.live), gpu.live, old(gpu.trace), gpu.trace,
                             SwapchainCreateInfo(surface, support, indices, width, height), handle, images, imageViews,
                             imageFormat)
      ensures imageFormat == ChooseSurfaceFormat(support.formats).format
      ensures extent == ChooseSwapExtent(support.capabilities, width, height)
      ensures |images| >= ImageCount(support.capabilities) && imageCount == |images|
      ensures gpu.signalled == old(gpu.signalled) && gpu.pending == old(gpu.pending)
      ensures frameBuffers == old(frameBuffers)
    {
      var format := ChooseSurfaceFormat(support.formats).format;
      var createInfo := SwapchainCreateInfo(surface, support, indices, width, height);
      CreateFrom(gpu, createInfo, format);
    }

    /** The driver calls of `Create` and the fields they set. */
    method CreateFrom(gpu: Gpu, createInfo: Info, format: Format)
      requires gpu.Valid()
      requires createInfo.SwapchainInfo? && createInfo.surface in gpu.live
      modifies this, gpu
      ensures gpu.Valid()
      ensures SwapchainBuilt(old(gpu.info), gpu.info, old(gpu.live), gpu.live, old(gpu.trace), gpu.trace,
                             createInfo, handle, images, imageViews, format)
      ensures imageFormat == format && extent == createInfo.extent
      ensures |images| >= createInfo.minImageCount && imageCount == |images|
      ensures gpu.signalled == old(gpu.signalled) && gpu.pending == old(gpu.pending)
      ensures frameBuffers == old(frameBuffers)
    {
      ghost var info0, live0, trace0 := gpu.info, gpu.live, gpu.trace;
      var h, imgs, views := CreateObjects(gpu, createInfo, format);
      handle, images, imageViews := h, imgs, views;
      imageCount, imageFormat, extent := |imgs|, format, createInfo.extent;
      assert SwapchainBuilt(info0, gpu.info, live0, gpu.live, trace0, gpu.trace, createInfo, h, imgs, views, format);
    }

    /** `Cleanup`: every view, then the swapchain; images and framebuffers are
        not touched. */
    method Cleanup(gpu: Gpu)
      requires gpu.Valid()
      modifies gpu
      ensures gpu.Valid()
      ensures gpu.trace == old(gpu.trace) + DestroyEach(imageViews) + [Call.Destroy(handle)]
      ensures gpu.live == old(gpu.live) - Elements(imageViews) - {handle}
      ensures gpu.info == old(gpu.info) && gpu.signalled == old(gpu.signalled) && gpu.pending == old(gpu.pending)
    {
      DestroyAll(gpu, imageViews);
      gpu.Destroy(handle);
    }

    /** `CreateFrameBuffers`: one framebuffer per view, attached to view i and
        sized to the swapchain extent. */
    method CreateFrameBuffers(gpu: Gpu, renderPass: Handle)
      requires gpu.Valid()
      requires renderPass in gpu.live && forall i :: 0 <= i < |imageViews| ==> imageViews[i] in gpu.live
      modifies this, gpu
      ensures gpu.Valid()
      ensures |frameBuffers| == |imageViews|
      ensures NewObjects(old(gpu.info), gpu.info, frameBuffers, FramebufferInfos(renderPass, imageViews, extent))
      ensures Extends(old(gpu.info), gpu.info)
      ensures gpu.live == old(gpu.live) + Elements(frameBuffers)
      ensures gpu.signalled == old(gpu.signalled) && gpu.pending == old(gpu.pending)
      ensures gpu.trace == old(gpu.trace) + Creations(frameBuffers, FramebufferInfos(renderPass, imageViews, extent))
      ensures handle == old(handle) && imageFormat == old(imageFormat) && extent == old(extent)
      ensures imageCount == old(imageCount) && images == old(images) && imageViews == old(imageViews)
    {
      var infos := FramebufferInfos(renderPass, imageViews, extent);
      forall k, r | 0 <= k < |infos| && r in Refs(infos[k]) ensures gpu.Usable(r) {
        assert Refs(infos[k]) == {renderPass, imageViews[k]};
      }
      frameBuffers := CreateAll(gpu, infos);
    }

    /** `CreateImageViews`: one view per image, targeting image i with the
        swapchain's format. */
    method CreateImageViews(gpu: Gpu)
      requires gpu.Valid()
      requires forall i :: 0 <= i < |images| ==> gpu.Usable(images[i])
      modifies this, gpu
      ensures gpu.Valid()
      ensures |imageViews| == |images|
      ensures NewObjects(old(gpu.info), gpu.info, imageViews, ViewInfos(images, imageFormat))
      ensures Extends(old(gpu.info), gpu.info)
      ensures gpu.live == old(gpu.live) + Elements(imageViews)
      ensures gpu.signalled == old(gpu.signalled) && gpu.pending == old(gpu.pending)
      ensures gpu.trace == old(gpu.trace) + Creations(imageViews, ViewInfos(images, imageFormat))
      ensures handle == old(handle) && imageFormat == old(imageFormat) && extent == old(extent)
      ensures imageCount == old(imageCount) && images == old(images) && frameBuffers == old(frameBuffers)
    {
      imageViews := CreateViews(gpu, images, imageFormat);
    }
  }

  /** What `Create` leaves in the driver, stated on values: a new swapchain
      made from `createInfo`, new images of it, one new view per image, no
      other object created or destroyed, and the calls in order. */
  ghost predicate SwapchainBuilt(info0: map<Handle, Info>, info: map<Handle, Info>, live0: set<Handle>,
                                 live: set<Handle>, trace0: seq<Call>, trace: seq<Call>, createInfo: Info,
                                 handle: Handle, images: seq<Handle>, views: seq<Handle>, format: Format)
  {
    && handle.Obj? && handle !in info0 && handle in info && info[handle] == createInfo
    && (forall i :: 0 <= i < |images| ==> images[i] !in info0 && images[i] in info && info[images[i]] == ImageInfo(handle))
    && NewObjects(info0, info, views, ViewInfos(images, format))
    && Extends(info0, info)
    && live == live0 + {handle} + Elements(views)
    && trace == trace0 + [Call.Create(handle, createInfo)] + Creations(views, ViewInfos(images, format))
  }

  /** The driver calls of `Create`: the swapchain, the query of its images
      (at least the requested count) and one view per image. */
  method CreateObjects(gpu: Gpu, createInfo: Info, format: Format)
    returns (handle: Handle, images: seq<Handle>, views: seq<Handle>)
    requires gpu.Valid()
    requires createInfo.SwapchainInfo? && createInfo.surface in gpu.live
    modifies gpu
    ensures gpu.Valid()
    ensures SwapchainBuilt(old(gpu.info), gpu.info, old(gpu.live), gpu.live, old(gpu.trace), gpu.trace, createInfo,
                           handle, images, views, format)
    ensures |images| >= createInfo.minImageCount && |images| <= UINT32_MAX
    ensures gpu.signalled == old(gpu.signalled) && gpu.pending == old(gpu.pending)
  {
    ghost var info0 := gpu.info;
    handle := gpu.Create(createInfo);
    assert handle in gpu.info && gpu.info[handle] == createInfo && handle !in info0;
    images := gpu.GetSwapchainImages(handle, createInfo.minImageCount);
    ghost var info2 := gpu.info;
    assert Extends(info0, info2) && info2[handle] == createInfo;
    views := CreateViews(gpu, images, format);
    assert Extends(info2, gpu.info);
  }

  /** The loop of `CreateImageViews`: entry i of the resized vector becomes a
      new view of `images[i]`. */
  method CreateViews(gpu: Gpu, images: seq<Handle>, format: Format) returns (views: seq<Handle>)
    requires gpu.Valid()
    requires forall i :: 0 <= i < |images| ==> gpu.Usable(images[i])
    modifies gpu
    ensures gpu.Valid()
    ensures |views| == |images|
    ensures NewObjects(old(gpu.info), gpu.info, views, ViewInfos(images, format))
    ensures Extends(old(gpu.info), gpu.info)
    ensures gpu.live == old(gpu.live) + Elements(views)
    ensures gpu.signalled == old(gpu.signalled) && gpu.pending == old(gpu.pending)
    ensures gpu.trace == old(gpu.trace) + Creations(views, ViewInfos(images, format))
  {
    var infos := ViewInfos(images, format);
    forall k, r | 0 <= k < |infos| && r in Refs(infos[k]) ensures gpu.Usable(r) {
      assert Refs(infos[k]) == {images[k]};
    }
    views := CreateAll(gpu, infos);
  }
}
