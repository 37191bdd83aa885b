/** The part of the Vulkan API the renderer relies on, as an abstract driver.

    Handles are abstract values. The driver remembers the create-info of every
    object it has handed out, which objects are still alive (created and not
    yet destroyed by the application), the signalled state of every fence, and
    the ordered trace of the calls made to it, so that creation and teardown
    orders can be stated as properties of `trace`. */
module Vulkan {

  /** 32-bit unsigned integers (`uint32_t`). */
  type u32 = x: int | 0 <= x < 0x1_0000_0000
  const UINT32_MAX: u32 := 0xFFFF_FFFF

  /** `VkResult` codes used by the renderer; every other value is an error. */
  type VkResult = int
  const VK_SUCCESS: VkResult := 0
  const VK_SUBOPTIMAL_KHR: VkResult := 1000001003
  const VK_ERROR_OUT_OF_DATE_KHR: VkResult := -1000001004
  const VK_ERROR_EXTENSION_NOT_PRESENT: VkResult := -7

  /** `VkBool32`. */
  const VK_FALSE: u32 := 0
  const VK_TRUE: u32 := 1

  type Format = u32
  const VK_FORMAT_UNDEFINED: Format := 0
  const VK_FORMAT_B8G8R8A8_SRGB: Format := 50

  type ColorSpace = u32
  const VK_COLOR_SPACE_SRGB_NONLINEAR_KHR: ColorSpace := 0

  type PresentMode = u32
  const VK_PRESENT_MODE_IMMEDIATE_KHR: PresentMode := 0
  const VK_PRESENT_MODE_MAILBOX_KHR: PresentMode := 1
  const VK_PRESENT_MODE_FIFO_KHR: PresentMode := 2
  const VK_PRESENT_MODE_FIFO_RELAXED_KHR: PresentMode := 3

  const VK_QUEUE_GRAPHICS_BIT: bv32 := 0x1

  datatype SurfaceFormat = SurfaceFormat(format: Format, colorSpace: ColorSpace)

  datatype Extent2D = Extent2D(width: u32, height: u32)

  /** The fields of `VkSurfaceCapabilitiesKHR` the renderer reads. */
  datatype SurfaceCapabilities = SurfaceCapabilities(
    minImageCount: u32,
    maxImageCount: u32,
    currentExtent: Extent2D,
    minImageExtent: Extent2D,
    maxImageExtent: Extent2D,
    currentTransform: u32)

  /** `SwapchainSupportDetails`: one query of a surface's capabilities. */
  datatype SupportDetails = SupportDetails(
    capabilities: SurfaceCapabilities,
    formats: seq<SurfaceFormat>,
    presentModes: seq<PresentMode>)

  datatype SharingMode = Exclusive | Concurrent

  /** One queue family as the driver reports it: its `queueFlags`, and what
      `vkGetPhysicalDeviceSurfaceSupportKHR` answers for the renderer's surface. */
  datatype QueueFamily = QueueFamily(queueFlags: bv32, presentSupport: bool)

  /** The queue family list of a device; its length is a `uint32_t` count. */
  type Families = s: seq<QueueFamily> | |s| <= UINT32_MAX

  /** Everything the renderer can learn about one physical device. */
  datatype PhysicalDevice = PhysicalDevice(
    handle: Handle,
    queueFamilies: Families,
    extensions: seq<string>,
    support: SupportDetails)

  /** Abstract handles. `QueueOf` is the queue `vkGetDeviceQueue` returns: it is
      determined by the device, the family and the index within the family. */
  datatype Handle = NullHandle | Obj(id: nat) | QueueOf(device: nat, family: u32, index: u32)

  datatype QueueCreateInfo = QueueCreateInfo(family: u32, queueCount: nat)

  /** What an object was created from (the parts of the create-info structs the
      model keeps). */
  datatype Info =
    | InstanceInfo(layers: seq<string>, extensions: seq<string>)
    | MessengerInfo(severities: bv32, types: bv32)
    | SurfaceInfo
    | DeviceInfo(physicalDevice: Handle, queues: seq<QueueCreateInfo>, layers: seq<string>, extensions: seq<string>)
    | CommandPoolInfo(family: u32)
    | CommandBufferInfo(pool: Handle)
    | SwapchainInfo(surface: Handle, minImageCount: u32, format: Format, colorSpace: ColorSpace,
                     extent: Extent2D, sharing: SharingMode, familyIndices: seq<u32>,
                     preTransform: u32, presentMode: PresentMode)
    | ImageInfo(swapchain: Handle)
    | ImageViewInfo(image: Handle, format: Format)
    | RenderPassInfo(format: Format)
    | ShaderModuleInfo(path: string)
    | PipelineLayoutInfo
    | PipelineInfo(vertexShader: Handle, fragmentShader: Handle, layout: Handle, renderPass: Handle, extent: Extent2D)
    | FramebufferInfo(renderPass: Handle, attachment: Handle, extent: Extent2D)
    | SemaphoreInfo
    | FenceInfo(signalled: bool)

  /** One call into the driver, as it appears in the trace. */
  datatype Call =
    | Create(handle: Handle, info: Info)
    | Destroy(handle: Handle)
    | AllocateCommandBuffers(pool: Handle, buffers: seq<Handle>)
    | FreeCommandBuffers(pool: Handle, buffers: seq<Handle>)
    | Record(buffer: Handle, renderPass: Handle, framebuffer: Handle, extent: Extent2D,
             pipeline: Handle, vertexCount: nat)
    | WaitIdle
    | WaitForFence(fence: Handle)
    | ResetFence(fence: Handle)
    | Acquire(swapchain: Handle, semaphore: Handle)
    | Submit(buffer: Handle, waitSemaphore: Handle, signalSemaphore: Handle, fence: Handle)
    | Present(waitSemaphore: Handle, swapchain: Handle, imageIndex: nat)

  /** The objects a create-info names, which must still be usable when the
      object is made. The physical device of a device create-info is
      enumerated, not created, and is not listed. */
  function Refs(i: Info): set<Handle> {
    match i
    case SwapchainInfo(surface, _, _, _, _, _, _, _, _) => {surface}
    case ImageInfo(swapchain) => {swapchain}
    case ImageViewInfo(image, _) => {image}
    case CommandBufferInfo(pool) => {pool}
    case PipelineInfo(vertexShader, fragmentShader, layout, renderPass, _) => {vertexShader, fragmentShader, layout, renderPass}
    case FramebufferInfo(renderPass, attachment, _) => {renderPass, attachment}
    case _ => {}
  }

  /** The calls that destroy each of `hs`, in order. */
  function DestroyEach(hs: seq<Handle>): (r: seq<Call>)
    ensures |r| == |hs|
    ensures forall i {:trigger r[i]} :: 0 <= i < |hs| ==> r[i] == Destroy(hs[i])
  {
    if hs == [] then [] else [Destroy(hs[0])] + DestroyEach(hs[1..])
  }

  lemma {:induction false} DestroyEachAppend(hs: seq<Handle>, h: Handle)
    ensures DestroyEach(hs + [h]) == DestroyEach(hs) + [Destroy(h)]
  {
    var l, r := DestroyEach(hs + [h]), DestroyEach(hs) + [Destroy(h)];
    assert |l| == |r|;
    forall i | 0 <= i < |l| ensures l[i] == r[i] {
      if i < |hs| { assert (hs + [h])[i] == hs[i]; }
    }
  }

  /** The calls that create `hs[i]` from `infos[i]`, in order. */
  function Creations(hs: seq<Handle>, infos: seq<Info>): (r: seq<Call>)
    requires |hs| == |infos|
    ensures |r| == |hs|
    ensures forall i {:trigger r[i]} :: 0 <= i < |hs| ==> r[i] == Create(hs[i], infos[i])
  {
    if hs == [] then [] else Creations(hs[..|hs| - 1], infos[..|infos| - 1]) + [Create(hs[|hs| - 1], infos[|infos| - 1])]
  }

  /** Extending a trace that ends with the creations of `hs` by the creation
      of `h`. */
  lemma {:induction false} CreationsAppend(t0: seq<Call>, t1: seq<Call>, hs: seq<Handle>, infos: seq<Info>, h: Handle, i: Info)
    requires |hs| == |infos|
    requires t1 == t0 + Creations(hs, infos)
    ensures t1 + [Create(h, i)] == t0 + Creations(hs + [h], infos + [i])
  {
    assert (hs + [h])[..|hs|] == hs;
    assert (infos + [i])[..|infos|] == infos;
    assert Creations(hs + [h], infos + [i]) == Creations(hs, infos) + [Create(h, i)];
  }

  /** `after` keeps every object of `before` with its create-info. */
  ghost predicate Extends(before: map<Handle, Info>, after: map<Handle, Info>) {
    before.Keys <= after.Keys && forall h :: h in before ==> after[h] == before[h]
  }

  /** `hs` are objects absent from `before` and made from `infos` in `after`. */
  ghost predicate NewObjects(before: map<Handle, Info>, after: map<Handle, Info>, hs: seq<Handle>, infos: seq<Info>) {
    && |hs| == |infos|
    && (forall i :: 0 <= i < |hs| ==> hs[i].Obj? && hs[i] !in before && hs[i] in after && after[hs[i]] == infos[i])
  }

  lemma NewObjectsAppend(before: map<Handle, Info>, mid: map<Handle, Info>, after: map<Handle, Info>,
                         hs: seq<Handle>, infos: seq<Info>, h: Handle, i: Info)
    requires NewObjects(before, mid, hs, infos) && Extends(before, mid)
    requires h.Obj? && h !in mid && after == mid[h := i]
    ensures NewObjects(before, after, hs + [h], infos + [i]) && Extends(before, after)
  {
    var hs', infos' := hs + [h], infos + [i];
    forall k | 0 <= k < |hs'|
      ensures hs'[k].Obj? && hs'[k] !in before && hs'[k] in after && after[hs'[k]] == infos'[k]
    {
      if k < |hs| { assert hs'[k] == hs[k] && infos'[k] == infos[k]; }
    }
  }

  /** The set of elements of a sequence of handles. */
  function Elements(hs: seq<Handle>): (r: set<Handle>)
    ensures forall h :: h in r <==> h in hs
  {
    set h | h in hs
  }

  /** Adding `h` to a set that already holds the elements of `hs`. */
  lemma ElementsAppend(base: set<Handle>, s: set<Handle>, hs: seq<Handle>, h: Handle)
    requires s == base + Elements(hs)
    ensures s + {h} == base + Elements(hs + [h])
  {
    assert Elements(hs + [h]) == Elements(hs) + {h};
  }

  /** The driver. */
  class Gpu {
    /** Number of object handles handed out so far: every `Obj` handle in use
        has an id below it. */
    var next: nat
    /** Create-info of every object ever created. */
    var info: map<Handle, Info>
    /** Objects created by the application and not yet destroyed. */
    var live: set<Handle>
    /** Fences in the signalled state. */
    var signalled: set<Handle>
    /** Fences with a submission that has not completed yet: they become
        signalled once the GPU finishes it. */
    var pending: set<Handle>
    /** Every call made so far, in order. */
    var trace: seq<Call>

    ghost predicate Valid()
      reads this
    {
      && (forall h :: h in info ==> h.Obj? && h.id < next)
      && live <= info.Keys
      && signalled + pending <= info.Keys
      && signalled !! pending
    }

    /** True of a handle that is not yet in use. */
    ghost predicate Unused(h: Handle)
      reads this
    {
      h.Obj? && h !in info
    }

    /** `h` may be named in a create-info: a live object, or an image of a
        live swapchain. */
    ghost predicate Usable(h: Handle)
      reads this
    {
      h in live || (h in info && info[h].ImageInfo? && info[h].swapchain in live)
    }

    constructor ()
      ensures Valid()
      ensures info == map[] && live == {} && signalled == {} && pending == {} && trace == []
    {
      next, info, live, signalled, pending, trace := 0, map[], {}, {}, {}, [];
    }

    /** Any `vkCreate*` call: a new handle made from `i` (fences start
        signalled exactly when `i` asks for it). */
    method Create(i: Info) returns (h: Handle)
      requires Valid()
      requires forall r :: r in Refs(i) ==> Usable(r)
      modifies this
      ensures Valid()
      ensures old(Unused(h))
      ensures info == old(info)[h := i]
      ensures live == old(live) + {h}
      ensures signalled == (if i == FenceInfo(true) then old(signalled) + {h} else old(signalled))
      ensures pending == old(pending)
      ensures trace == old(trace) + [Call.Create(h, i)]
    {
      h := Obj(next);
      next := next + 1;
      info := info[h := i];
      live := live + {h};
      if i == FenceInfo(true) {
        signalled := signalled + {h};
      }
      trace := trace + [Call.Create(h, i)];
    }

    /** Any `vkDestroy*` call. The fence state of a destroyed object is no
        longer observable and is left as it was. */
    method Destroy(h: Handle)
      requires Valid()
      modifies this
      ensures Valid()
      ensures info == old(info) && live == old(live) - {h}
      ensures signalled == old(signalled) && pending == old(pending)
      ensures trace == old(trace) + [Call.Destroy(h)]
    {
      live := live - {h};
      trace := trace + [Call.Destroy(h)];
    }

    /** A `vkCreate*` call whose result code the caller inspects: with
        `VK_SUCCESS` it is `Create`; otherwise no object is made and the
        handle is left null. */
    method CreateWithResult(i: Info, result: VkResult) returns (h: Handle)
      requires Valid()
      requires forall r :: r in Refs(i) ==> Usable(r)
      requires !i.FenceInfo?
      modifies this
      ensures Valid()
      ensures result == VK_SUCCESS ==> && old(Unused(h)) && info == old(info)[h := i] && live == old(live) + {h}
                                       && trace == old(trace) + [Call.Create(h, i)]
      ensures result != VK_SUCCESS ==> h == NullHandle && info == old(info) && live == old(live) && trace == old(trace)
      ensures signalled == old(signalled) && pending == old(pending)
    {
      if result == VK_SUCCESS {
        h := Create(i);
      } else {
        h := NullHandle;
      }
    }

    /** `vkGetSwapchainImagesKHR`: the images of swapchain `sc`, which the
        presentation engine owns. There are at least `minCount` of them; their
        exact number is the driver's choice. */
    method GetSwapchainImages(sc: Handle, minCount: u32) returns (images: seq<Handle>)
      requires Valid()
      modifies this
      ensures Valid()
      ensures minCount <= |images| <= UINT32_MAX
      ensures forall i :: 0 <= i < |images| ==> old(Unused(images[i])) && images[i] in info && info[images[i]] == ImageInfo(sc)
      ensures old(info).Keys <= info.Keys
      ensures forall h :: h in old(info) ==> info[h] == old(info)[h]
      ensures live == old(live) && signalled == old(signalled) && pending == old(pending)
      ensures trace == old(trace)
    {
      images := [];
      while |images| < minCount
        invariant Valid()
        invariant |images| <= minCount
        invariant forall i :: 0 <= i < |images| ==> old(Unused(images[i])) && images[i] in info && info[images[i]] == ImageInfo(sc)
        invariant old(info).Keys <= info.Keys
        invariant forall h :: h in old(info) ==> info[h] == old(info)[h]
        invariant next >= old(next)
        invariant live == old(live) && signalled == old(signalled) && pending == old(pending)
        invariant trace == old(trace)
        decreases minCount - |images|
      {
        var h := Obj(next);
        next := next + 1;
        info := info[h := ImageInfo(sc)];
        images := images + [h];
      }
    }

    /** `vkAllocateCommandBuffers`: `n` new command buffers from `pool`. */
    method AllocateCommandBuffers(pool: Handle, n: nat) returns (buffers: seq<Handle>)
      requires Valid()
      requires pool in live
      modifies this
      ensures Valid()
      ensures |buffers| == n
      ensures forall i :: 0 <= i < n ==> old(Unused(buffers[i])) && buffers[i] in info && info[buffers[i]] == CommandBufferInfo(pool)
      ensures old(info).Keys <= info.Keys
      ensures forall h :: h in old(info) ==> info[h] == old(info)[h]
      ensures live == old(live) + Elements(buffers)
      ensures signalled == old(signalled) && pending == old(pending)
      ensures trace == old(trace) + [Call.AllocateCommandBuffers(pool, buffers)]
    {
      buffers := [];
      while |buffers| < n
        invariant Valid()
        invariant |buffers| <= n
        invariant forall i :: 0 <= i < |buffers| ==> old(Unused(buffers[i])) && buffers[i] in info && info[buffers[i]] == CommandBufferInfo(pool)
        invariant old(info).Keys <= info.Keys
        invariant forall h :: h in old(info) ==> info[h] == old(info)[h]
        invariant live == old(live) && signalled == old(signalled) && pending == old(pending)
        invariant trace == old(trace)
        decreases n - |buffers|
      {
        var h := Obj(next);
        next := next + 1;
        info := info[h := CommandBufferInfo(pool)];
        buffers := buffers + [h];
      }
      live := live + Elements(buffers);
      trace := trace + [Call.AllocateCommandBuffers(pool, buffers)];
    }

    /** `vkFreeCommandBuffers`. */
    method FreeCommandBuffers(pool: Handle, buffers: seq<Handle>)
      requires Valid()
      modifies this
      ensures Valid()
      ensures info == old(info) && live == old(live) - Elements(buffers)
      ensures signalled == old(signalled) && pending == old(pending)
      ensures trace == old(trace) + [Call.FreeCommandBuffers(pool, buffers)]
    {
      live := live - Elements(buffers);
      trace := trace + [Call.FreeCommandBuffers(pool, buffers)];
    }

    /** Recording of one command buffer (begin, render pass, bind, draw, end). */
    method Record(buffer: Handle, renderPass: Handle, framebuffer: Handle, extent: Extent2D,
                  pipeline: Handle, vertexCount: nat)
      requires Valid()
      requires buffer in live && renderPass in live && framebuffer in live && pipeline in live
      modifies this
      ensures Valid()
      ensures info == old(info) && live == old(live)
      ensures signalled == old(signalled) && pending == old(pending)
      ensures trace == old(trace) + [Call.Record(buffer, renderPass, framebuffer, extent, pipeline, vertexCount)]
    {
      trace := trace + [Call.Record(buffer, renderPass, framebuffer, extent, pipeline, vertexCount)];
    }

    /** `vkDeviceWaitIdle`: every pending submission completes. */
    method WaitIdle()
      requires Valid()
      modifies this
      ensures Valid()
      ensures info == old(info) && live == old(live)
      ensures signalled == old(signalled) + old(pending) && pending == {}
      ensures trace == old(trace) + [Call.WaitIdle]
    {
      signalled := signalled + pending;
      pending := {};
      trace := trace + [Call.WaitIdle];
    }

    /** `vkWaitForFences` on one fence with an infinite timeout. The call
        returns only if the fence is signalled or has a submission that will
        signal it: the precondition is the absence of deadlock. */
    method WaitForFence(f: Handle)
      requires Valid()
      requires f in signalled || f in pending
      modifies this
      ensures Valid()
      ensures info == old(info) && live == old(live)
      ensures signalled == old(signalled) + {f} && pending == old(pending) - {f}
      ensures trace == old(trace) + [Call.WaitForFence(f)]
    {
      signalled := signalled + {f};
      pending := pending - {f};
      trace := trace + [Call.WaitForFence(f)];
    }

    /** `vkResetFences` on one fence; a fence still in use by a submission
        must not be reset. */
    method ResetFence(f: Handle)
      requires Valid()
      requires f !in pending
      modifies this
      ensures Valid()
      ensures info == old(info) && live == old(live)
      ensures signalled == old(signalled) - {f} && pending == old(pending)
      ensures trace == old(trace) + [Call.ResetFence(f)]
    {
      signalled := signalled - {f};
      trace := trace + [Call.ResetFence(f)];
    }

    /** `vkAcquireNextImageKHR`; its result code and image index are chosen by
        the presentation engine and are inputs of the renderer's model. */
    method Acquire(sc: Handle, semaphore: Handle)
      requires Valid()
      modifies this
      ensures Valid()
      ensures info == old(info) && live == old(live)
      ensures signalled == old(signalled) && pending == old(pending)
      ensures trace == old(trace) + [Call.Acquire(sc, semaphore)]
    {
      trace := trace + [Call.Acquire(sc, semaphore)];
    }

    /** `vkQueueSubmit` of one command buffer that signals `fence` on
        completion. The fence must be unsignalled and unused; a submission
        that succeeds makes it pending. */
    method Submit(buffer: Handle, waitSemaphore: Handle, signalSemaphore: Handle, fence: Handle,
                  result: VkResult)
      requires Valid()
      requires fence in info && fence !in signalled && fence !in pending
      modifies this
      ensures Valid()
      ensures info == old(info) && live == old(live) && signalled == old(signalled)
      ensures pending == (if result == VK_SUCCESS then old(pending) + {fence} else old(pending))
      ensures trace == old(trace) + [Call.Submit(buffer, waitSemaphore, signalSemaphore, fence)]
    {
      if result == VK_SUCCESS {
        pending := pending + {fence};
      }
      trace := trace + [Call.Submit(buffer, waitSemaphore, signalSemaphore, fence)];
    }

    /** `vkQueuePresentKHR`; its result code is an input of the renderer's model. */
    method Present(waitSemaphore: Handle, sc: Handle, imageIndex: nat)
      requires Valid()
      modifies this
      ensures Valid()
      ensures info == old(info) && live == old(live)
      ensures signalled == old(signalled) && pending == old(pending)
      ensures trace == old(trace) + [Call.Present(waitSemaphore, sc, imageIndex)]
    {
      trace := trace + [Call.Present(waitSemaphore, sc, imageIndex)];
    }
  }

  /** One step of `CreateAll`: the objects made so far stay as they are. */
  method CreateNext(gpu: Gpu, ghost info0: map<Handle, Info>, ghost live0: set<Handle>, ghost trace0: seq<Call>,
                    hs: seq<Handle>, ghost infos: seq<Info>, info: Info) returns (h: Handle)
    requires gpu.Valid()
    requires forall r :: r in Refs(info) ==> gpu.Usable(r)
    requires !info.FenceInfo?
    requires NewObjects(info0, gpu.info, hs, infos) && Extends(info0, gpu.info)
    requires gpu.live == live0 + Elements(hs)
    requires gpu.trace == trace0 + Creations(hs, infos)
    modifies gpu
    ensures gpu.Valid()
    ensures NewObjects(info0, gpu.info, hs + [h], infos + [info]) && Extends(info0, gpu.info)
    ensures gpu.live == live0 + Elements(hs + [h])
    ensures gpu.signalled == old(gpu.signalled) && gpu.pending == old(gpu.pending)
    ensures gpu.trace == trace0 + Creations(hs + [h], infos + [info])
  {
    ghost var mid, midTrace, midLive := gpu.info, gpu.trace, gpu.live;
    h := gpu.Create(info);
    NewObjectsAppend(info0, mid, gpu.info, hs, infos, h, info);
    CreationsAppend(trace0, midTrace, hs, infos, h, info);
    ElementsAppend(live0, midLive, hs, h);
  }

  /** One `vkCreate*` call per create-info, in order (the loops that create
      views and framebuffers). Every object a create-info names is usable
      before the first call; no create-info is a fence. */
  method CreateAll(gpu: Gpu, infos: seq<Info>) returns (hs: seq<Handle>)
    requires gpu.Valid()
    requires forall k, r :: 0 <= k < |infos| && r in Refs(infos[k]) ==> gpu.Usable(r)
    requires forall k :: 0 <= k < |infos| ==> !infos[k].FenceInfo?
    modifies gpu
    ensures gpu.Valid()
    ensures NewObjects(old(gpu.info), gpu.info, hs, infos)
    ensures Extends(old(gpu.info), gpu.info)
    ensures gpu.live == old(gpu.live) + Elements(hs)
    ensures gpu.signalled == old(gpu.signalled) && gpu.pending == old(gpu.pending)
    ensures gpu.trace == old(gpu.trace) + Creations(hs, infos)
  {
    hs := [];
    var i := 0;
    while i < |infos|
      invariant 0 <= i <= |infos| && |hs| == i
      invariant gpu.Valid()
      invariant NewObjects(old(gpu.info), gpu.info, hs, infos[..i])
      invariant Extends(old(gpu.info), gpu.info)
      invariant gpu.live == old(gpu.live) + Elements(hs)
      invariant gpu.signalled == old(gpu.signalled) && gpu.pending == old(gpu.pending)
      invariant gpu.trace == old(gpu.trace) + Creations(hs, infos[..i])
    {
      var info := infos[i];
      ghost var done := infos[..i];
      assert infos[..i + 1] == done + [info];
      forall r | r in Refs(info) ensures gpu.Usable(r) {
        assert old(gpu.Usable(r));
      }
      var h := CreateNext(gpu, old(gpu.info), old(gpu.live), old(gpu.trace), hs, done, info);
      hs := hs + [h];
      i := i + 1;
    }
    assert infos[..i] == infos;
  }

  /** One `vkDestroy*` call per handle, in order. */
  method DestroyAll(gpu: Gpu, hs: seq<Handle>)
    requires gpu.Valid()
    modifies gpu
    ensures gpu.Valid()
    ensures gpu.trace == old(gpu.trace) + DestroyEach(hs)
    ensures gpu.live == old(gpu.live) - Elements(hs)
    ensures gpu.info == old(gpu.info) && gpu.signalled == old(gpu.signalled) && gpu.pending == old(gpu.pending)
  {
    var i := 0;
    while i < |hs|
      invariant 0 <= i <= |hs|
      invariant gpu.Valid()
      invariant gpu.trace == old(gpu.trace) + DestroyEach(hs[..i])
      invariant gpu.live == old(gpu.live) - Elements(hs[..i])
      invariant gpu.info == old(gpu.info) && gpu.signalled == old(gpu.signalled) && gpu.pending == old(gpu.pending)
    {
      gpu.Destroy(hs[i]);
      DestroyEachAppend(hs[..i], hs[i]);
      assert hs[..i + 1] == hs[..i] + [hs[i]];
      i := i + 1;
    }
    assert hs[..i] == hs;
  }
}
