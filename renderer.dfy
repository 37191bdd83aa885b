/** The renderer's globals (`context`, `swapchain`, the pipeline handles, the
    frame-synchronisation objects) as the fields of one `Renderer`, and the
    operations of gfx.cpp that drive them: `init`, `draw`,
    `recreateSwapchain`, `cleanupSwapchain` and `shutdown`. */
module GfxRenderer {
  import opened Wrappers
  import opened Vulkan
  import opened VulkanQueue
  import opened VulkanDevice
  import opened Swapchain
  import opened FrameSync
  import opened Validation
  import opened VulkanValidation
  import opened Gfx
  import opened Vectors

  /** No handle of `hs` existed in `info0`. */
  ghost predicate AllNew(hs: set<Handle>, info0: map<Handle, Info>) {
    forall h :: h in hs ==> h !in info0
  }

  /** What `createSwapchain` to `createSwapchainFramebuffers` leave in the
      driver: the objects of `o` are new and alive, nothing else was created
      or destroyed, and the calls are those of `ChainCalls`. */
  ghost predicate ChainBuilt(info0: map<Handle, Info>, info: map<Handle, Info>, live0: set<Handle>, live: set<Handle>,
                             trace0: seq<Call>, trace: seq<Call>, o: SwapchainObjects, createInfo: Info)
  {
    && o.Sized()
    && AllNew(ChainOwned(o), info0)
    && Extends(info0, info)
    && live == live0 + ChainOwned(o)
    && trace == trace0 + ChainCalls(o, createInfo)
  }

  /** The handles of a sequence that `NewObjects` describes are new. */
  lemma NewObjectsAreNew(before: map<Handle, Info>, after: map<Handle, Info>, hs: seq<Handle>, infos: seq<Info>)
    requires NewObjects(before, after, hs, infos)
    ensures AllNew(Elements(hs), before)
  {
    forall h | h in Elements(hs) ensures h !in before {
      var i :| 0 <= i < |hs| && hs[i] == h;
    }
  }

  /** An acquire result that lets the frame go on to the submission. */
  predicate AcquireProceeds(acquireResult: VkResult) {
    acquireResult == VK_SUCCESS || acquireResult == VK_SUBOPTIMAL_KHR
  }

  /** A present result after which the swapchain is recreated. */
  predicate PresentRecreates(presentResult: VkResult) {
    presentResult == VK_ERROR_OUT_OF_DATE_KHR || presentResult == VK_SUBOPTIMAL_KHR
  }

  /** The outcome of a frame whose acquire succeeded: a failed submission and
      a present result other than success, out-of-date or suboptimal are
      fatal. */
  function FrameOutcome(submitResult: VkResult, presentResult: VkResult): (r: Outcome)
    ensures r.Ok? <==> submitResult == VK_SUCCESS && (presentResult == VK_SUCCESS || PresentRecreates(presentResult))
    ensures submitResult != VK_SUCCESS ==> r == Fatal(SubmitFailedMessage)
    ensures submitResult == VK_SUCCESS && !r.Ok? ==> r == Fatal(PresentFailedMessage)
  {
    if submitResult != VK_SUCCESS then Fatal(SubmitFailedMessage)
    else if presentResult == VK_SUCCESS || PresentRecreates(presentResult) then Ok
    else Fatal(PresentFailedMessage)
  }

  /** Whether a frame ends in `recreateSwapchain`: an out-of-date acquire, or
      a submitted frame whose present reports out-of-date or suboptimal. */
  predicate Recreates(minimized: bool, acquireResult: VkResult, submitResult: VkResult, presentResult: VkResult) {
    && !minimized
    && (|| acquireResult == VK_ERROR_OUT_OF_DATE_KHR
        || (AcquireProceeds(acquireResult) && submitResult == VK_SUCCESS && PresentRecreates(presentResult)))
  }

  /** The calls of a frame from the image-fence wait to the submission: the
      wait only when the image has a fence, then the reset of the frame fence
      immediately followed by the submission that signals it. */
  function SubmitCalls(imageFence: Handle, fence: Handle, buffer: Handle, waitSemaphore: Handle,
                       signalSemaphore: Handle): seq<Call>
  {
    (if imageFence != NullHandle then [Call.WaitForFence(imageFence)] else [])
      + [Call.ResetFence(fence), Call.Submit(buffer, waitSemaphore, signalSemaphore, fence)]
  }

  /** The calls of `recreateSwapchain` that replaces generation `o0` by `o1`:
      the idle wait, the teardown of `o0`, then the rebuild. */
  function RecreateCalls(o0: SwapchainObjects, o1: SwapchainObjects, pool: Handle, createInfo: Info): seq<Call>
    requires o1.WellSized()
  {
    [Call.WaitIdle] + TeardownCalls(o0, pool) + RebuildCalls(o1, pool, createInfo)
  }

  /** The call of `setupDebugCallback` in a debug build: a messenger is made
      only when the entry point was found and the creation succeeded. */
  function DebugSetupCalls(validation: bool, lookupFound: bool, driverResult: VkResult, messenger: Handle): seq<Call> {
    if validation && lookupFound && driverResult == VK_SUCCESS then [Call.Create(messenger, DebugMessengerInfo)] else []
  }

  /** The calls of `init` from `createSwapchain` to `createCommandBuffers`:
      the chain, then the command pool for the graphics family, then the
      command buffers. */
  function InitChainCalls(o: SwapchainObjects, pool: Handle, family: u32, createInfo: Info): seq<Call>
    requires o.WellSized()
  {
    ChainCalls(o, createInfo) + [Call.Create(pool, CommandPoolInfo(family))] + CommandBufferCalls(o, pool)
  }

  /** The calls of `shutdown`'s debug-build messenger destruction, which is
      skipped when the destroy entry point is not found. */
  function DebugCleanupCalls(validation: bool, lookupFound: bool, messenger: Handle): seq<Call> {
    if validation && lookupFound then [Call.Destroy(messenger)] else []
  }

  /** The submission of `draw` on the frame synchroniser and the driver: the
      image's fence is waited on and replaced by the frame fence, which is
      reset and handed to the submission. */
  method SubmitFrame(gpu: Gpu, sync: FrameSynchronizer, buffer: Handle, imageIndex: u32, submitResult: VkResult)
    requires sync.Valid() && gpu.Valid()
    requires imageIndex < |sync.imagesInFlight|
    requires sync.ImageFencesAreFrameFences() && sync.FencesWaitable(gpu) && sync.FencesDistinct()
    requires sync.GetNextFrameFence() in gpu.signalled
    modifies sync, gpu
    ensures sync.Valid() && gpu.Valid()
    ensures sync.currentFrame == old(sync.currentFrame)
    ensures sync.imagesInFlight == old(sync.imagesInFlight)[imageIndex := sync.GetNextFrameFence()]
    ensures sync.ImageFencesAreFrameFences()
    ensures gpu.trace == old(gpu.trace) + SubmitCalls(old(sync.imagesInFlight[imageIndex]), sync.GetNextFrameFence(), buffer,
                                                      sync.GetNextWaitSemaphore(), sync.GetNextSignalSemaphore())
    ensures gpu.info == old(gpu.info) && gpu.live == old(gpu.live)
    ensures sync.GetNextFrameFence() !in gpu.signalled
    ensures sync.GetNextFrameFence() in gpu.pending <==> submitResult == VK_SUCCESS
    ensures submitResult == VK_SUCCESS ==> sync.FencesWaitable(gpu)
  {
    var fence := sync.GetNextFrameFence();
    ghost var other := sync.inFlightFences[1 - sync.currentFrame];
    assert other != fence by {
      assert sync.inFlightFences[..][0] != sync.inFlightFences[..][1];
    }
    ghost var imageFence := sync.imagesInFlight[imageIndex];
    assert imageFence != NullHandle ==> imageFence == sync.inFlightFences[..][0] || imageFence == sync.inFlightFences[..][1];
    sync.WaitImageFence(gpu, imageIndex);
    sync.ResetFrameFence(gpu);
    gpu.Submit(buffer, sync.GetNextWaitSemaphore(), sync.GetNextSignalSemaphore(), fence, submitResult);
    assert other in gpu.signalled || other in gpu.pending;
  }

  lemma SeqRegroup3<T>(t: seq<T>, a: seq<T>, b: seq<T>, c: seq<T>)
    ensures t + a + b + c == t + (a + b + c)
  {
  }

  /** The middle of `cleanupSwapchain`: the command buffers are freed, then
      the pipeline, its layout and the render pass are destroyed. */
  method DestroyPipelineObjects(gpu: Gpu, pool: Handle, buffers: seq<Handle>, pipeline: Handle, layout: Handle,
                                renderPass: Handle)
    requires gpu.Valid()
    modifies gpu
    ensures gpu.Valid()
    ensures gpu.trace == old(gpu.trace) + [Call.FreeCommandBuffers(pool, buffers), Call.Destroy(pipeline),
                                           Call.Destroy(layout), Call.Destroy(renderPass)]
    ensures gpu.live == old(gpu.live) - Elements(buffers) - {pipeline, layout, renderPass}
    ensures gpu.info == old(gpu.info) && gpu.signalled == old(gpu.signalled) && gpu.pending == old(gpu.pending)
  {
    gpu.FreeCommandBuffers(pool, buffers);
    gpu.Destroy(pipeline);
    gpu.Destroy(layout);
    gpu.Destroy(renderPass);
  }

  /** `createRenderPass` and `createGraphicsPipeline`. */
  method CreatePipelineObjects(gpu: Gpu, format: Format, extent: Extent2D)
    returns (renderPass: Handle, vertexShader: Handle, fragmentShader: Handle, pipelineLayout: Handle, pipeline: Handle)
    requires gpu.Valid()
    modifies gpu
    ensures gpu.Valid()
    ensures AllNew({renderPass, pipelineLayout, pipeline}, old(gpu.info))
    ensures Extends(old(gpu.info), gpu.info)
    ensures gpu.live == old(gpu.live) + {renderPass, pipelineLayout, pipeline}
    ensures gpu.signalled == old(gpu.signalled) && gpu.pending == old(gpu.pending)
    ensures gpu.trace == old(gpu.trace) + [
              Call.Create(renderPass, RenderPassInfo(format)),
              Call.Create(vertexShader, ShaderModuleInfo(VertexShaderPath)),
              Call.Create(fragmentShader, ShaderModuleInfo(FragmentShaderPath)),
              Call.Create(pipelineLayout, PipelineLayoutInfo),
              Call.Create(pipeline, PipelineInfo(vertexShader, fragmentShader, pipelineLayout, renderPass, extent)),
              Call.Destroy(fragmentShader), Call.Destroy(vertexShader)]
  {
    renderPass := CreateRenderPass(gpu, format);
    vertexShader, fragmentShader, pipelineLayout, pipeline := CreateGraphicsPipeline(gpu, renderPass, extent);
  }

  /** The steps of the chain compose: a new swapchain with its views, the
      pipeline objects, then the framebuffers. */
  lemma ChainBuiltFrom(info0: map<Handle, Info>, info1: map<Handle, Info>, info2: map<Handle, Info>,
                       info3: map<Handle, Info>, live0: set<Handle>, live1: set<Handle>, live2: set<Handle>,
                       live3: set<Handle>, trace0: seq<Call>, trace1: seq<Call>, trace2: seq<Call>, trace3: seq<Call>,
                       o: SwapchainObjects, createInfo: Info)
    requires SwapchainBuilt(info0, info1, live0, live1, trace0, trace1, createInfo, o.swapchain, o.images, o.views, o.format)
    requires AllNew({o.renderPass, o.pipelineLayout, o.pipeline}, info1) && Extends(info1, info2)
    requires live2 == live1 + {o.renderPass, o.pipelineLayout, o.pipeline}
    requires trace2 == trace1 + PipelineCalls(o)
    requires NewObjects(info2, info3, o.frameBuffers, FramebufferInfos(o.renderPass, o.views, o.extent))
    requires Extends(info2, info3)
    requires live3 == live2 + Elements(o.frameBuffers)
    requires trace3 == trace2 + Creations(o.frameBuffers, FramebufferInfos(o.renderPass, o.views, o.extent))
    ensures ChainBuilt(info0, info3, live0, live3, trace0, trace3, o, createInfo)
  {
    NewObjectsAreNew(info0, info1, o.views, ViewInfos(o.images, o.format));
    NewObjectsAreNew(info2, info3, o.frameBuffers, FramebufferInfos(o.renderPass, o.views, o.extent));
    assert o.Sized();
    ChainTrace(trace0, trace1, trace2, trace3, o, createInfo);
    var views, frameBuffers := Elements(o.views), Elements(o.frameBuffers);
    assert ChainOwned(o) == {o.swapchain} + {o.renderPass, o.pipelineLayout, o.pipeline} + views + frameBuffers;
    forall h | h in ChainOwned(o) ensures h !in info0 {
      if h in frameBuffers {
        assert h !in info2;
      } else if h in {o.renderPass, o.pipelineLayout, o.pipeline} {
        assert h !in info1;
      }
    }
    SetShuffle(live0, {o.swapchain}, views, {o.renderPass, o.pipelineLayout, o.pipeline}, frameBuffers);
  }

  lemma ChainTrace(trace0: seq<Call>, trace1: seq<Call>, trace2: seq<Call>, trace3: seq<Call>,
                   o: SwapchainObjects, createInfo: Info)
    requires o.Sized()
    requires trace1 == trace0 + [Call.Create(o.swapchain, createInfo)] + Creations(o.views, ViewInfos(o.images, o.format))
    requires trace2 == trace1 + PipelineCalls(o)
    requires trace3 == trace2 + Creations(o.frameBuffers, FramebufferInfos(o.renderPass, o.views, o.extent))
    ensures trace3 == trace0 + ChainCalls(o, createInfo)
  {
    var c0 := [Call.Create(o.swapchain, createInfo)];
    var c1 := Creations(o.views, ViewInfos(o.images, o.format));
    var c2 := PipelineCalls(o);
    var c3 := Creations(o.frameBuffers, FramebufferInfos(o.renderPass, o.views, o.extent));
    SeqShuffle(trace0, c0, c1, c2, c3);
  }

  lemma SeqShuffle<T>(t: seq<T>, a: seq<T>, b: seq<T>, c: seq<T>, d: seq<T>)
    ensures t + a + b + c + d == t + (a + b + c + d)
  {
  }

  lemma SetShuffle<T>(a: set<T>, b: set<T>, c: set<T>, d: set<T>, e: set<T>)
    ensures a + b + c + d + e == a + (b + d + c + e)
  {
  }

  /** `createCommandBuffers` on the driver: one buffer per framebuffer from
      `pool`, then buffer i records a triangle draw into framebuffer i. */
  method AllocateAndRecord(gpu: Gpu, pool: Handle, renderPass: Handle, frameBuffers: seq<Handle>, extent: Extent2D,
                           pipeline: Handle)
    returns (buffers: seq<Handle>)
    requires gpu.Valid()
    requires pool in gpu.live && renderPass in gpu.live && pipeline in gpu.live
    requires forall i :: 0 <= i < |frameBuffers| ==> frameBuffers[i] in gpu.live
    modifies gpu
    ensures gpu.Valid()
    ensures |buffers| == |frameBuffers|
    ensures AllNew(Elements(buffers), old(gpu.info)) && Extends(old(gpu.info), gpu.info)
    ensures gpu.live == old(gpu.live) + Elements(buffers)
    ensures gpu.signalled == old(gpu.signalled) && gpu.pending == old(gpu.pending)
    ensures gpu.trace == old(gpu.trace) + [Call.AllocateCommandBuffers(pool, buffers)]
                           + Recordings(buffers, renderPass, frameBuffers, extent, pipeline)
  {
    buffers := gpu.AllocateCommandBuffers(pool, |frameBuffers|);
    forall h | h in Elements(buffers) ensures h !in old(gpu.info) {
      var i :| 0 <= i < |buffers| && buffers[i] == h;
    }
    RecordAll(gpu, buffers, renderPass, frameBuffers, extent, pipeline);
  }

  /** The chain and then the command buffers: a whole generation `o2` is
      built, and its objects are new. */
  lemma RebuildFrom(info2: map<Handle, Info>, info3: map<Handle, Info>, info4: map<Handle, Info>,
                    live2: set<Handle>, live3: set<Handle>, live4: set<Handle>,
                    trace2: seq<Call>, trace3: seq<Call>, trace4: seq<Call>,
                    o1: SwapchainObjects, o2: SwapchainObjects, pool: Handle, createInfo: Info)
    requires ChainBuilt(info2, info3, live2, live3, trace2, trace3, o1, createInfo)
    requires o2 == o1.(commandBuffers := o2.commandBuffers) && o2.WellSized()
    requires AllNew(Elements(o2.commandBuffers), info3) && Extends(info3, info4)
    requires live4 == live3 + Elements(o2.commandBuffers)
    requires trace4 == trace3 + CommandBufferCalls(o2, pool)
    ensures trace4 == trace2 + RebuildCalls(o2, pool, createInfo)
    ensures live4 == live2 + Owned(o2)
    ensures AllNew(Owned(o2), info2) && Extends(info2, info4)
  {
    assert ChainOwned(o1) == ChainOwned(o2) && ChainCalls(o1, createInfo) == ChainCalls(o2, createInfo);
    SeqRegroup(trace2, ChainCalls(o2, createInfo), CommandBufferCalls(o2, pool));
    SetRegroup(live2, ChainOwned(o2), Elements(o2.commandBuffers));
    forall h | h in Owned(o2) ensures h !in info2 {
      if h in Elements(o2.commandBuffers) {
        assert h !in info3;
      }
    }
  }

  /** The composition of `init`'s chain, pool and command-buffer steps. */
  lemma InitChainFrom(info0: map<Handle, Info>, info1: map<Handle, Info>, info2: map<Handle, Info>,
                      live0: set<Handle>, live1: set<Handle>, live2: set<Handle>,
                      trace0: seq<Call>, trace1: seq<Call>, trace2: seq<Call>,
                      o1: SwapchainObjects, o2: SwapchainObjects, pool: Handle, family: u32, createInfo: Info)
    requires ChainBuilt(info0, info1, live0, live1, trace0, trace1, o1, createInfo)
    requires live1 <= info1.Keys
    requires o2 == o1.(commandBuffers := o2.commandBuffers) && o2.WellSized()
    requires pool !in info1 && AllNew(Elements(o2.commandBuffers), info1) && pool !in Elements(o2.commandBuffers)
    requires Extends(info1, info2)
    requires live2 == live1 + {pool} + Elements(o2.commandBuffers)
    requires trace2 == trace1 + [Call.Create(pool, CommandPoolInfo(family))] + CommandBufferCalls(o2, pool)
    ensures trace2 == trace0 + InitChainCalls(o2, pool, family, createInfo)
    ensures live2 == live0 + Owned(o2) + {pool}
    ensures AllNew(Owned(o2), info0) && pool !in info0 && pool !in Owned(o2)
    ensures Extends(info0, info2)
  {
    assert ChainOwned(o1) == ChainOwned(o2) && ChainCalls(o1, createInfo) == ChainCalls(o2, createInfo);
    SeqRegroup3(trace0, ChainCalls(o2, createInfo), [Call.Create(pool, CommandPoolInfo(family))],
                CommandBufferCalls(o2, pool));
    forall h | h in Owned(o2) ensures h !in info0 && h != pool {
      if h in Elements(o2.commandBuffers) {
        assert h !in info1;
      } else {
        assert h in live1;
      }
    }
    assert live2 == live0 + Owned(o2) + {pool};
  }

  /** Why the renderer is ready after `init`: the objects made before the
      generation, the pool and the frame slots are all alive, and none of
      them belongs to the generation. */
  lemma InitReady(info0: map<Handle, Info>, info1: map<Handle, Info>, info2: map<Handle, Info>,
                  live0: set<Handle>, live1: set<Handle>, live2: set<Handle>, signalled: set<Handle>,
                  instance: Handle, surface: Handle, device: Handle, pool: Handle, owned: set<Handle>,
                  ia: array<Handle>, rf: array<Handle>, f: array<Handle>)
    requires {instance, surface, device} <= live0 && live0 <= info0.Keys && live1 <= info1.Keys
    requires live1 == live0 + owned + {pool} && AllNew(owned, info0) && pool !in owned
    requires Extends(info1, info2) && live1 <= live2
    requires ia.Length == MAX_FRAMES_IN_FLIGHT && rf.Length == MAX_FRAMES_IN_FLIGHT && f.Length == MAX_FRAMES_IN_FLIGHT
    requires forall k :: 0 <= k < MAX_FRAMES_IN_FLIGHT ==> SlotReady(info1, info2, live2, signalled, ia[k], rf[k], f[k])
    ensures {instance, surface, device, pool, ia[0], ia[1], rf[0], rf[1], f[0], f[1]} <= live2
    ensures {instance, surface, device, pool, ia[0], ia[1], rf[0], rf[1], f[0], f[1]} !! owned
  {
    assert SlotReady(info1, info2, live2, signalled, ia[0], rf[0], f[0]);
    assert SlotReady(info1, info2, live2, signalled, ia[1], rf[1], f[1]);
    forall h | h in owned
      ensures h !in {instance, surface, device, pool, ia[0], ia[1], rf[0], rf[1], f[0], f[1]}
    {
      assert h in live1;
    }
  }

  lemma SeqRegroup<T>(t: seq<T>, a: seq<T>, b: seq<T>)
    ensures t + a + b == t + (a + b)
  {
  }

  lemma SetRegroup<T>(a: set<T>, b: set<T>, c: set<T>)
    ensures a + b + c == a + (b + c)
  {
  }

  /** The swapchain generation whose swapchain objects are those of `sc`. */
  function ObjectsOf(sc: Swapchain, renderPass: Handle, vertexShader: Handle, fragmentShader: Handle,
                     pipelineLayout: Handle, pipeline: Handle, commandBuffers: seq<Handle>): SwapchainObjects
    reads sc
  {
    SwapchainObjects(sc.handle, sc.imageFormat, sc.extent, sc.images, sc.imageViews, sc.frameBuffers,
                     renderPass, vertexShader, fragmentShader, pipelineLayout, pipeline, commandBuffers)
  }

  /** The body of `CreateSwapchainChain` on the swapchain object and the
      driver. */
  method BuildChain(gpu: Gpu, sc: Swapchain, surface: Handle, support: SupportDetails, indices: QueueFamilyIndices,
                    width: u32, height: u32, commandBuffers: seq<Handle>)
    returns (renderPass: Handle, vertexShader: Handle, fragmentShader: Handle, pipelineLayout: Handle, pipeline: Handle)
    requires gpu.Valid() && |support.formats| > 0 && indices.IsValid() && surface in gpu.live
    modifies sc, gpu
    ensures gpu.Valid()
    ensures ChainBuilt(old(gpu.info), gpu.info, old(gpu.live), gpu.live, old(gpu.trace), gpu.trace,
                       ObjectsOf(sc, renderPass, vertexShader, fragmentShader, pipelineLayout, pipeline, commandBuffers),
                       SwapchainCreateInfo(surface, support, indices, width, height))
    ensures sc.imageFormat == ChooseSurfaceFormat(support.formats).format
    ensures sc.extent == ChooseSwapExtent(support.capabilities, width, height)
    ensures |sc.images| >= ImageCount(support.capabilities) && sc.imageCount == |sc.images|
    ensures gpu.signalled == old(gpu.signalled) && gpu.pending == old(gpu.pending)
  {
    ghost var info0, live0, trace0 := gpu.info, gpu.live, gpu.trace;
    sc.Create(gpu, surface, support, indices, width, height);
    ghost var info1, live1, trace1 := gpu.info, gpu.live, gpu.trace;
    renderPass, vertexShader, fragmentShader, pipelineLayout, pipeline :=
      CreatePipelineObjects(gpu, sc.imageFormat, sc.extent);
    ghost var info2, live2, trace2 := gpu.info, gpu.live, gpu.trace;
    sc.CreateFrameBuffers(gpu, renderPass);
    ChainBuiltFrom(info0, info1, info2, gpu.info, live0, live1, live2, gpu.live, trace0, trace1, trace2, gpu.trace,
                   ObjectsOf(sc, renderPass, vertexShader, fragmentShader, pipelineLayout, pipeline, commandBuffers),
                   SwapchainCreateInfo(surface, support, indices, width, height));
  }

  class Renderer {
    /** Fixed per build: true in a debug build. */
    const validationLayersEnabled: bool
    /** `context` minus the instance and the surface, which are fields here. */
    const context: VulkanDevice
    const swapchain: Swapchain
    /** The per-frame arrays, `imagesInFlight` and `currentFrame`. */
    const sync: FrameSynchronizer
    var requiredExtensions: seq<string>
    var instance: Handle
    var debugMessenger: Handle
    var surface: Handle
    var renderPass: Handle
    var pipelineLayout: Handle
    var graphicsPipeline: Handle
    /** The shader modules of the last `createGraphicsPipeline`, which the
        source keeps only in locals. */
    ghost var vertexShader: Handle
    ghost var fragmentShader: Handle

    /** The globals at program start; the handles are null. */
    constructor (validation: bool)
      ensures validationLayersEnabled == validation
      ensures Valid() && Initial()
      ensures fresh(context) && fresh(swapchain) && fresh(sync)
      ensures fresh(sync.imageAvailableSemaphores) && fresh(sync.renderFinishedSemaphores) && fresh(sync.inFlightFences)
      ensures sync.currentFrame == 0
    {
      validationLayersEnabled := validation;
      context := new VulkanDevice();
      swapchain := new Swapchain();
      sync := new FrameSynchronizer();
      requiredExtensions := InitialRequiredExtensions;
      instance, debugMessenger, surface := NullHandle, NullHandle, NullHandle;
      renderPass, pipelineLayout, graphicsPipeline := NullHandle, NullHandle, NullHandle;
      vertexShader, fragmentShader := NullHandle, NullHandle;
    }

    /** What `init` relies on from program start: the extension list has its
        initial value and no image has a fence yet. */
    ghost predicate Initial()
      reads this, sync
    {
      requiredExtensions == InitialRequiredExtensions && sync.imagesInFlight == []
    }

    /** The objects of the current swapchain generation. */
    ghost function Objects(): SwapchainObjects
      reads this, context, swapchain
    {
      SwapchainObjects(swapchain.handle, swapchain.imageFormat, swapchain.extent, swapchain.images,
                       swapchain.imageViews, swapchain.frameBuffers, renderPass, vertexShader, fragmentShader,
                       pipelineLayout, graphicsPipeline, context.commandBuffers)
    }

    /** The objects that outlive every swapchain generation: instance,
        surface, device, command pool and the six synchronisation objects. */
    ghost function Persistent(): set<Handle>
      requires sync.Valid()
      reads this, context, sync, sync.imageAvailableSemaphores, sync.renderFinishedSemaphores, sync.inFlightFences
    {
      {instance, surface, context.handle, context.commandPool,
       sync.imageAvailableSemaphores[0], sync.imageAvailableSemaphores[1],
       sync.renderFinishedSemaphores[0], sync.renderFinishedSemaphores[1],
       sync.inFlightFences[0], sync.inFlightFences[1]}
    }

    ghost predicate Valid()
      reads this, context, swapchain, sync
    {
      sync.Valid() && Objects().WellSized()
    }

    /** The state between two frames once `init` has succeeded: the renderer's
        objects are alive and distinct from the current generation's, and
        both frame fences can be waited on. */
    ghost predicate Ready(gpu: Gpu)
      reads this, context, swapchain, sync, sync.imageAvailableSemaphores, sync.renderFinishedSemaphores,
            sync.inFlightFences, gpu
    {
      && Valid()
      && QueueFamilies(context.physicalDevice.queueFamilies).IsValid()
      && gpu.Valid()
      && sync.FencesWaitable(gpu) && sync.FencesDistinct() && sync.ImageFencesAreFrameFences()
      && Persistent() <= gpu.live
      && Persistent() !! Owned(Objects())
    }

    /** The swapchain create-info for one support query and window size. */
    ghost function ChainCreateInfo(support: SupportDetails, width: u32, height: u32): Info
      requires |support.formats| > 0 && QueueFamilies(context.physicalDevice.queueFamilies).IsValid()
      reads this, context
    {
      SwapchainCreateInfo(surface, support, QueueFamilies(context.physicalDevice.queueFamilies), width, height)
    }

    /** `cleanupSwapchain`: framebuffers, command buffers, pipeline, layout,
        render pass, views and swapchain are released, in that order, and
        nothing else. */
    method CleanupSwapchain(gpu: Gpu)
      requires Valid() && gpu.Valid()
      modifies gpu
      ensures gpu.Valid()
      ensures gpu.trace == old(gpu.trace) + TeardownCalls(Objects(), context.commandPool)
      ensures gpu.live == old(gpu.live) - Owned(Objects())
      ensures gpu.info == old(gpu.info) && gpu.signalled == old(gpu.signalled) && gpu.pending == old(gpu.pending)
    {
      DestroyAll(gpu, swapchain.frameBuffers);
      DestroyPipelineObjects(gpu, context.commandPool, context.commandBuffers, graphicsPipeline, pipelineLayout, renderPass);
      swapchain.Cleanup(gpu);
    }

    /** `createCommandBuffers`: one recorded command buffer per framebuffer. */
    method CreateCommandBuffers(gpu: Gpu)
      requires gpu.Valid() && Objects().Sized()
      requires context.commandPool in gpu.live && renderPass in gpu.live && graphicsPipeline in gpu.live
      requires forall i :: 0 <= i < |swapchain.frameBuffers| ==> swapchain.frameBuffers[i] in gpu.live
      modifies context, gpu
      ensures gpu.Valid()
      ensures Objects().WellSized() && Objects() == old(Objects()).(commandBuffers := context.commandBuffers)
      ensures AllNew(Elements(context.commandBuffers), old(gpu.info)) && Extends(old(gpu.info), gpu.info)
      ensures gpu.live == old(gpu.live) + Elements(context.commandBuffers)
      ensures gpu.signalled == old(gpu.signalled) && gpu.pending == old(gpu.pending)
      ensures gpu.trace == old(gpu.trace) + CommandBufferCalls(Objects(), context.commandPool)
      ensures context.physicalDevice == old(context.physicalDevice) && context.handle == old(context.handle)
      ensures context.commandPool == old(context.commandPool)
      ensures context.graphicsQueue == old(context.graphicsQueue) && context.presentQueue == old(context.presentQueue)
    {
      var buffers := AllocateAndRecord(gpu, context.commandPool, renderPass, swapchain.frameBuffers, swapchain.extent,
                                       graphicsPipeline);
      context.commandBuffers := buffers;
    }

    /** `createSwapchain`, `createSwapchainImageViews`, `createRenderPass`,
        `createGraphicsPipeline` and `createSwapchainFramebuffers`, in that
        order. */
    method CreateSwapchainChain(gpu: Gpu, support: SupportDetails, width: u32, height: u32)
      requires gpu.Valid() && |support.formats| > 0
      requires QueueFamilies(context.physicalDevice.queueFamilies).IsValid()
      requires surface in gpu.live
      modifies this, swapchain, gpu
      ensures gpu.Valid()
      ensures ChainBuilt(old(gpu.info), gpu.info, old(gpu.live), gpu.live, old(gpu.trace), gpu.trace, Objects(),
                         ChainCreateInfo(support, width, height))
      ensures swapchain.imageFormat == ChooseSurfaceFormat(support.formats).format
      ensures swapchain.extent == ChooseSwapExtent(support.capabilities, width, height)
      ensures |swapchain.images| >= ImageCount(support.capabilities) && swapchain.imageCount == |swapchain.images|
      ensures gpu.signalled == old(gpu.signalled) && gpu.pending == old(gpu.pending)
      ensures instance == old(instance) && surface == old(surface) && debugMessenger == old(debugMessenger)
      ensures requiredExtensions == old(requiredExtensions)
    {
      var indices := FindQueueFamilies(context.physicalDevice);
      var rp, vs, fs, layout, pipeline := BuildChain(gpu, swapchain, surface, support, indices, width, height,
                                                      context.commandBuffers);
      SetPipeline(rp, vs, fs, layout, pipeline);
    }

    /** Stores the handles of a new pipeline generation. */
    method SetPipeline(rp: Handle, vs: Handle, fs: Handle, layout: Handle, pipeline: Handle)
      modifies this
      ensures renderPass == rp && vertexShader == vs && fragmentShader == fs
      ensures pipelineLayout == layout && graphicsPipeline == pipeline
      ensures instance == old(instance) && surface == old(surface) && debugMessenger == old(debugMessenger)
      ensures requiredExtensions == old(requiredExtensions)
    {
      renderPass, pipelineLayout, graphicsPipeline := rp, layout, pipeline;
      vertexShader, fragmentShader := vs, fs;
    }

    /** `recreateSwapchain`: waits for the device to go idle, tears the
        current generation down and builds a new one from the support query
        and window size. The instance, surface, device, command pool, frame
        slots and `imagesInFlight` are untouched. */
    method RecreateSwapchain(gpu: Gpu, support: SupportDetails, width: u32, height: u32)
      requires Ready(gpu) && |support.formats| > 0
      modifies this, context, swapchain, gpu
      ensures Ready(gpu)
      ensures swapchain.imageFormat == ChooseSurfaceFormat(support.formats).format
      ensures swapchain.extent == ChooseSwapExtent(support.capabilities, width, height)
      ensures |swapchain.images| >= ImageCount(support.capabilities)
      ensures gpu.trace == old(gpu.trace)
                             + RecreateCalls(old(Objects()), Objects(), context.commandPool, ChainCreateInfo(support, width, height))
      ensures gpu.live == old(gpu.live) - Owned(old(Objects())) + Owned(Objects())
      ensures AllNew(Owned(Objects()), old(gpu.info))
      ensures gpu.signalled == old(gpu.signalled) + old(gpu.pending) && gpu.pending == {}
      ensures Persistent() == old(Persistent())
      ensures instance == old(instance) && surface == old(surface) && debugMessenger == old(debugMessenger)
      ensures requiredExtensions == old(requiredExtensions)
      ensures context.physicalDevice == old(context.physicalDevice) && context.handle == old(context.handle)
      ensures context.commandPool == old(context.commandPool)
      ensures context.graphicsQueue == old(context.graphicsQueue) && context.presentQueue == old(context.presentQueue)
    {
      ghost var o0 := Objects();
      gpu.WaitIdle();
      Regenerate(gpu, support, width, height);
      SeqRegroup3(old(gpu.trace), [Call.WaitIdle], TeardownCalls(o0, context.commandPool),
                  RebuildCalls(Objects(), context.commandPool, ChainCreateInfo(support, width, height)));
    }

    /** `recreateSwapchain` as written leaves `imagesInFlight` at the size it
        was given when the sync objects were created: once a recreation
        yields more images than that, an index the next acquire may return
        lies outside the table. */
    method RecreateOutgrowsImageTable(gpu: Gpu, support: SupportDetails, width: u32, height: u32)
      requires Ready(gpu) && |support.formats| > 0
      requires |sync.imagesInFlight| < ImageCount(support.capabilities)
      modifies this, context, swapchain, gpu
      ensures Ready(gpu)
      ensures sync.imagesInFlight == old(sync.imagesInFlight)
      ensures |sync.imagesInFlight| < |swapchain.images|
    {
      RecreateSwapchain(gpu, support, width, height);
    }

    /** `recreateSwapchain` followed by the re-sizing of `imagesInFlight` to the
        new image count that `init` performs: every index into the new
        swapchain is an index into the table. */
    method RecreateSwapchainResized(gpu: Gpu, support: SupportDetails, width: u32, height: u32)
      requires Ready(gpu) && |support.formats| > 0
      modifies this, context, swapchain, sync, gpu
      ensures Ready(gpu)
      ensures |sync.imagesInFlight| == |swapchain.images| >= ImageCount(support.capabilities)
      ensures sync.imagesInFlight == Resize(old(sync.imagesInFlight), |swapchain.images|, NullHandle)
      ensures sync.currentFrame == old(sync.currentFrame)
      ensures gpu.trace == old(gpu.trace)
                             + RecreateCalls(old(Objects()), Objects(), context.commandPool, ChainCreateInfo(support, width, height))
      ensures gpu.live == old(gpu.live) - Owned(old(Objects())) + Owned(Objects())
      ensures Persistent() == old(Persistent())
    {
      RecreateSwapchain(gpu, support, width, height);
      ghost var o, p := Objects(), Persistent();
      sync.ResizeImages(|swapchain.images|);
      assert Objects() == o && Persistent() == p;
    }

    /** `recreateSwapchain` after the idle wait. */
    method Regenerate(gpu: Gpu, support: SupportDetails, width: u32, height: u32)
      requires Valid() && gpu.Valid() && |support.formats| > 0
      requires QueueFamilies(context.physicalDevice.queueFamilies).IsValid()
      requires surface in gpu.live && context.commandPool in gpu.live
      requires context.commandPool !in Owned(Objects()) && surface !in Owned(Objects())
      modifies this, context, swapchain, gpu
      ensures Valid() && gpu.Valid()
      ensures context.physicalDevice == old(context.physicalDevice) && context.handle == old(context.handle)
      ensures swapchain.imageFormat == ChooseSurfaceFormat(support.formats).format
      ensures swapchain.extent == ChooseSwapExtent(support.capabilities, width, height)
      ensures |swapchain.images| >= ImageCount(support.capabilities)
      ensures gpu.trace == old(gpu.trace) + TeardownCalls(old(Objects()), context.commandPool)
                             + RebuildCalls(Objects(), context.commandPool, ChainCreateInfo(support, width, height))
      ensures gpu.live == old(gpu.live) - Owned(old(Objects())) + Owned(Objects())
      ensures AllNew(Owned(Objects()), old(gpu.info))
      ensures gpu.signalled == old(gpu.signalled) && gpu.pending == old(gpu.pending)
      ensures instance == old(instance) && surface == old(surface) && debugMessenger == old(debugMessenger)
      ensures requiredExtensions == old(requiredExtensions)
      ensures context.commandPool == old(context.commandPool)
      ensures context.graphicsQueue == old(context.graphicsQueue) && context.presentQueue == old(context.presentQueue)
    {
      CleanupSwapchain(gpu);
      Rebuild(gpu, support, width, height);
    }

    /** The creation half of `recreateSwapchain`: `createSwapchain` to
        `createCommandBuffers`. */
    method Rebuild(gpu: Gpu, support: SupportDetails, width: u32, height: u32)
      requires sync.Valid() && gpu.Valid() && |support.formats| > 0
      requires QueueFamilies(context.physicalDevice.queueFamilies).IsValid()
      requires surface in gpu.live && context.commandPool in gpu.live
      modifies this, context, swapchain, gpu
      ensures Valid() && gpu.Valid()
      ensures context.physicalDevice == old(context.physicalDevice) && context.handle == old(context.handle)
      ensures swapchain.imageFormat == ChooseSurfaceFormat(support.formats).format
      ensures swapchain.extent == ChooseSwapExtent(support.capabilities, width, height)
      ensures |swapchain.images| >= ImageCount(support.capabilities)
      ensures gpu.trace == old(gpu.trace) + RebuildCalls(Objects(), context.commandPool, ChainCreateInfo(support, width, height))
      ensures gpu.live == old(gpu.live) + Owned(Objects())
      ensures AllNew(Owned(Objects()), old(gpu.info))
      ensures gpu.signalled == old(gpu.signalled) && gpu.pending == old(gpu.pending)
      ensures instance == old(instance) && surface == old(surface) && debugMessenger == old(debugMessenger)
      ensures requiredExtensions == old(requiredExtensions)
      ensures context.commandPool == old(context.commandPool)
      ensures context.graphicsQueue == old(context.graphicsQueue) && context.presentQueue == old(context.presentQueue)
    {
      ghost var info2, live2, trace2 := gpu.info, gpu.live, gpu.trace;
      CreateSwapchainChain(gpu, support, width, height);
      ghost var o1, info3, live3, trace3 := Objects(), gpu.info, gpu.live, gpu.trace;
      CreateCommandBuffers(gpu);
      RebuildFrom(info2, info3, gpu.info, live2, live3, gpu.live, trace2, trace3, gpu.trace,
                  o1, Objects(), context.commandPool, ChainCreateInfo(support, width, height));
    }

    /** `init` up to `createInstance` and `setupDebugCallback`: a debug build
        checks the validation layer and then adds the debug-utils extension
        to `requiredExtensions`; every required instance extension is
        checked; the instance is created with the enabled layers and
        extensions; a debug build then sets up the messenger, whose failures
        go unnoticed. */
    method InitInstance(gpu: Gpu, availableLayers: seq<string>, availableExtensions: seq<string>,
                        messengerLookupFound: bool, messengerResult: VkResult)
      returns (outcome: Outcome)
      requires gpu.Valid() && Initial()
      modifies this, gpu
      ensures gpu.Valid()
      ensures outcome == StartupChecks(validationLayersEnabled, availableLayers, availableExtensions)
      ensures requiredExtensions == (if validationLayersEnabled && VerifyNames("Layer", ValidationLayers, availableLayers).Fatal?
                                     then old(requiredExtensions) else EnabledExtensions(validationLayersEnabled))
      ensures !outcome.Ok? ==> gpu.trace == old(gpu.trace) && gpu.live == old(gpu.live) && gpu.info == old(gpu.info)
      ensures outcome.Ok? ==>
                && instance.Obj? && instance !in old(gpu.info) && instance in gpu.live
                && gpu.trace == old(gpu.trace)
                                 + [Call.Create(instance, InstanceInfo(EnabledLayers(validationLayersEnabled),
                                                                       EnabledExtensions(validationLayersEnabled)))]
                                 + DebugSetupCalls(validationLayersEnabled, messengerLookupFound, messengerResult,
                                                   debugMessenger)
      ensures gpu.live <= old(gpu.live) + {instance, debugMessenger} && old(gpu.live) <= gpu.live
      ensures Extends(old(gpu.info), gpu.info)
      ensures gpu.signalled == old(gpu.signalled) && gpu.pending == old(gpu.pending)
      ensures surface == old(surface)
    {
      if validationLayersEnabled {
        var layers := VerifyNames("Layer", ValidationLayers, availableLayers);
        if !layers.Ok? {
          return layers;
        }
        requiredExtensions := requiredExtensions + [DebugUtilsExtension];
      }
      outcome := VerifyNames("Extension", requiredExtensions, availableExtensions);
      if !outcome.Ok? {
        return;
      }
      instance := gpu.Create(InstanceInfo(EnabledLayers(validationLayersEnabled), requiredExtensions));
      if validationLayersEnabled {
        debugMessenger := SetupDebugCallback(gpu, messengerLookupFound, messengerResult, debugMessenger);
      }
    }

    /** `pickSuitableDevice` and `createLogicalDevice`: `devices` is the
        enumeration result. No device at all and no suitable device are
        fatal; otherwise the first suitable device gets a logical device with
        the enabled layers and the swapchain extension. */
    method InitDevice(gpu: Gpu, devices: seq<PhysicalDevice>) returns (outcome: Outcome)
      requires gpu.Valid()
      modifies context, gpu
      ensures gpu.Valid()
      ensures outcome.Ok? <==> FirstSuitable(devices, RequiredDeviceExtensions).Some?
      ensures |devices| == 0 ==> outcome == Fatal(NoVulkanGpuMessage)
      ensures |devices| > 0 && !outcome.Ok? ==> outcome == Fatal(NoSuitableGpuMessage)
      ensures !outcome.Ok? ==> gpu.trace == old(gpu.trace) && gpu.live == old(gpu.live)
      ensures outcome.Ok? ==>
                && context.physicalDevice == devices[FirstSuitable(devices, RequiredDeviceExtensions).value]
                && IsSuitable(context.physicalDevice, RequiredDeviceExtensions)
                && context.handle.Obj? && context.handle !in old(gpu.info)
                && gpu.trace == old(gpu.trace)
                                 + [Call.Create(context.handle,
                                                DeviceInfo(context.physicalDevice.handle,
                                                           QueueCreateInfos(QueueFamilies(context.physicalDevice.queueFamilies)),
                                                           EnabledLayers(validationLayersEnabled), RequiredDeviceExtensions))]
                && gpu.live == old(gpu.live) + {context.handle}
      ensures Extends(old(gpu.info), gpu.info)
      ensures gpu.signalled == old(gpu.signalled) && gpu.pending == old(gpu.pending)
    {
      outcome := PickSuitableDevice(devices);
      if !outcome.Ok? {
        return;
      }
      CreateLogicalDevice(gpu);
    }

    /** `createLogicalDevice`: the selected device's queue families, a device
        with the deduplicated queue list, the enabled layers and the swapchain
        extension, and queue 0 of each family. */
    method CreateLogicalDevice(gpu: Gpu)
      requires gpu.Valid() && QueueFamilies(context.physicalDevice.queueFamilies).IsValid()
      modifies context, gpu
      ensures gpu.Valid()
      ensures context.physicalDevice == old(context.physicalDevice)
      ensures var indices := QueueFamilies(context.physicalDevice.queueFamilies);
              && context.handle.Obj? && context.handle !in old(gpu.info)
              && gpu.trace == old(gpu.trace)
                               + [Call.Create(context.handle,
                                              DeviceInfo(context.physicalDevice.handle, QueueCreateInfos(indices),
                                                         EnabledLayers(validationLayersEnabled), RequiredDeviceExtensions))]
              && gpu.live == old(gpu.live) + {context.handle}
              && context.graphicsQueue == QueueOf(context.handle.id, indices.graphicsFamily.value, 0)
              && context.presentQueue == QueueOf(context.handle.id, indices.presentFamily.value, 0)
      ensures Extends(old(gpu.info), gpu.info)
      ensures gpu.signalled == old(gpu.signalled) && gpu.pending == old(gpu.pending)
      ensures context.commandPool == old(context.commandPool) && context.commandBuffers == old(context.commandBuffers)
    {
      var indices := FindQueueFamilies(context.physicalDevice);
      context.CreateLogicalDevice(gpu, indices, EnabledLayers(validationLayersEnabled), RequiredDeviceExtensions);
    }

    /** `createSurface`: the window surface. */
    method CreateSurface(gpu: Gpu)
      requires gpu.Valid()
      modifies this, gpu
      ensures gpu.Valid()
      ensures surface.Obj? && surface !in old(gpu.info) && gpu.info == old(gpu.info)[surface := SurfaceInfo]
      ensures gpu.live == old(gpu.live) + {surface}
      ensures gpu.trace == old(gpu.trace) + [Call.Create(surface, SurfaceInfo)]
      ensures gpu.signalled == old(gpu.signalled) && gpu.pending == old(gpu.pending)
      ensures instance == old(instance) && debugMessenger == old(debugMessenger)
      ensures requiredExtensions == old(requiredExtensions)
      ensures renderPass == old(renderPass) && pipelineLayout == old(pipelineLayout)
      ensures graphicsPipeline == old(graphicsPipeline)
      ensures vertexShader == old(vertexShader) && fragmentShader == old(fragmentShader)
    {
      surface := gpu.Create(SurfaceInfo);
    }

    /** `pickSuitableDevice`: fatal when no device is enumerated or none is
        suitable; otherwise the first suitable device is selected. */
    method PickSuitableDevice(devices: seq<PhysicalDevice>) returns (outcome: Outcome)
      modifies context
      ensures outcome.Ok? <==> FirstSuitable(devices, RequiredDeviceExtensions).Some?
      ensures |devices| == 0 ==> outcome == Fatal(NoVulkanGpuMessage)
      ensures |devices| > 0 && !outcome.Ok? ==> outcome == Fatal(NoSuitableGpuMessage)
      ensures outcome.Ok? ==>
                && context.physicalDevice == devices[FirstSuitable(devices, RequiredDeviceExtensions).value]
                && IsSuitable(context.physicalDevice, RequiredDeviceExtensions)
      ensures context.handle == old(context.handle) && context.commandPool == old(context.commandPool)
      ensures context.commandBuffers == old(context.commandBuffers)
      ensures context.graphicsQueue == old(context.graphicsQueue) && context.presentQueue == old(context.presentQueue)
    {
      if |devices| == 0 {
        return Fatal(NoVulkanGpuMessage);
      }
      var first := FirstSuitable(devices, RequiredDeviceExtensions);
      if first.None? {
        return Fatal(NoSuitableGpuMessage);
      }
      context.physicalDevice := devices[first.value];
      outcome := Ok;
    }

    /** `init`'s `createCommandPool` and `createCommandBuffers`: a pool bound
        to the graphics family, then one recorded buffer per framebuffer. */
    method InitCommands(gpu: Gpu)
      requires gpu.Valid() && Objects().Sized() && QueueFamilies(context.physicalDevice.queueFamilies).IsValid()
      requires renderPass in gpu.live && graphicsPipeline in gpu.live
      requires forall i :: 0 <= i < |swapchain.frameBuffers| ==> swapchain.frameBuffers[i] in gpu.live
      modifies context, gpu
      ensures gpu.Valid()
      ensures context.physicalDevice == old(context.physicalDevice) && context.handle == old(context.handle)
      ensures Objects().WellSized() && Objects() == old(Objects()).(commandBuffers := context.commandBuffers)
      ensures context.commandPool !in old(gpu.info) && context.commandPool !in Elements(context.commandBuffers)
      ensures AllNew(Elements(context.commandBuffers), old(gpu.info)) && Extends(old(gpu.info), gpu.info)
      ensures gpu.live == old(gpu.live) + {context.commandPool} + Elements(context.commandBuffers)
      ensures gpu.trace == old(gpu.trace)
                             + [Call.Create(context.commandPool,
                                            CommandPoolInfo(QueueFamilies(context.physicalDevice.queueFamilies).graphicsFamily.value))]
                             + CommandBufferCalls(Objects(), context.commandPool)
      ensures gpu.signalled == old(gpu.signalled) && gpu.pending == old(gpu.pending)
      ensures context.graphicsQueue == old(context.graphicsQueue) && context.presentQueue == old(context.presentQueue)
    {
      var indices := FindQueueFamilies(context.physicalDevice);
      context.CreateCommandPool(gpu, indices);
      CreateCommandBuffers(gpu);
    }

    /** `init` from `createSwapchain` to `createCommandBuffers`, with the
        support details and the window size the device reports. */
    method InitChain(gpu: Gpu, width: u32, height: u32)
      requires sync.Valid() && gpu.Valid()
      requires IsSuitable(context.physicalDevice, RequiredDeviceExtensions)
      requires surface in gpu.live
      modifies this, context, swapchain, gpu
      ensures Valid() && gpu.Valid()
      ensures context.physicalDevice == old(context.physicalDevice) && context.handle == old(context.handle)
      ensures |swapchain.images| <= UINT32_MAX
      ensures gpu.trace == old(gpu.trace)
                             + InitChainCalls(Objects(), context.commandPool,
                                              QueueFamilies(context.physicalDevice.queueFamilies).graphicsFamily.value,
                                              ChainCreateInfo(context.physicalDevice.support, width, height))
      ensures gpu.live == old(gpu.live) + Owned(Objects()) + {context.commandPool}
      ensures AllNew(Owned(Objects()), old(gpu.info)) && context.commandPool !in old(gpu.info)
      ensures context.commandPool !in Owned(Objects())
      ensures Extends(old(gpu.info), gpu.info)
      ensures gpu.signalled == old(gpu.signalled) && gpu.pending == old(gpu.pending)
      ensures instance == old(instance) && surface == old(surface) && debugMessenger == old(debugMessenger)
      ensures requiredExtensions == old(requiredExtensions)
      ensures context.graphicsQueue == old(context.graphicsQueue) && context.presentQueue == old(context.presentQueue)
    {
      ghost var info0, live0, trace0 := gpu.info, gpu.live, gpu.trace;
      // The suitable device's queue families and surface formats, before the heap changes.
      ghost var device := context.physicalDevice;
      assert QueueFamilies(device.queueFamilies).IsValid() && |device.support.formats| > 0;
      CreateSwapchainChain(gpu, context.physicalDevice.support, width, height);
      ghost var o1, info1, live1, trace1 := Objects(), gpu.info, gpu.live, gpu.trace;
      InitCommands(gpu);
      InitChainFrom(info0, info1, gpu.info, live0, live1, gpu.live, trace0, trace1, gpu.trace,
                    o1, Objects(), context.commandPool, QueueFamilies(context.physicalDevice.queueFamilies).graphicsFamily.value,
                    ChainCreateInfo(context.physicalDevice.support, width, height));
    }

    /** `init` from `createSwapchain` to `createSyncObjects`: after the chain,
        the pool and the command buffers, `imagesInFlight` gets one null entry
        per image and both frame slots are created with signalled fences, so
        the renderer is ready to draw. */
    method InitSwapchain(gpu: Gpu, width: u32, height: u32)
      requires sync.Valid() && gpu.Valid() && sync.imagesInFlight == []
      requires IsSuitable(context.physicalDevice, RequiredDeviceExtensions)
      requires {instance, surface, context.handle} <= gpu.live
      modifies this, context, swapchain, sync, sync.imageAvailableSemaphores, sync.renderFinishedSemaphores,
               sync.inFlightFences, gpu
      ensures Ready(gpu)
      ensures context.physicalDevice == old(context.physicalDevice) && context.handle == old(context.handle)
      ensures sync.currentFrame == old(sync.currentFrame)
      ensures |sync.imagesInFlight| == |swapchain.images|
      ensures forall i :: 0 <= i < |sync.imagesInFlight| ==> sync.imagesInFlight[i] == NullHandle
      ensures gpu.trace == old(gpu.trace)
                             + InitChainCalls(Objects(), context.commandPool,
                                              QueueFamilies(context.physicalDevice.queueFamilies).graphicsFamily.value,
                                              ChainCreateInfo(context.physicalDevice.support, width, height))
                             + SlotCreations(sync.imageAvailableSemaphores[..], sync.renderFinishedSemaphores[..],
                                             sync.inFlightFences[..])
      ensures old(gpu.live) <= gpu.live && Extends(old(gpu.info), gpu.info)
      ensures instance == old(instance) && surface == old(surface) && debugMessenger == old(debugMessenger)
      ensures requiredExtensions == old(requiredExtensions)
    {
      ghost var info0, live0 := gpu.info, gpu.live;
      // The suitable device's queue families, before the heap changes.
      ghost var device := context.physicalDevice;
      assert QueueFamilies(device.queueFamilies).IsValid();
      InitChain(gpu, width, height);
      ghost var o, pool := Objects(), context.commandPool;
      InitFrames(gpu, info0, live0);
      assert o == Objects() && pool == context.commandPool;
    }

    /** `createSyncObjects` once the chain, the pool and the command buffers
        exist (created since `info0` and `live0`): the frame slots complete
        the state in which frames are drawn. */
    method InitFrames(gpu: Gpu, ghost info0: map<Handle, Info>, ghost live0: set<Handle>)
      requires Valid() && gpu.Valid() && sync.imagesInFlight == []
      requires QueueFamilies(context.physicalDevice.queueFamilies).IsValid()
      requires |swapchain.images| <= UINT32_MAX
      requires {instance, surface, context.handle} <= live0 && live0 <= info0.Keys
      requires gpu.live == live0 + Owned(Objects()) + {context.commandPool}
      requires AllNew(Owned(Objects()), info0) && context.commandPool !in Owned(Objects())
      modifies sync, sync.imageAvailableSemaphores, sync.renderFinishedSemaphores, sync.inFlightFences, gpu
      ensures Ready(gpu)
      ensures sync.currentFrame == old(sync.currentFrame)
      ensures |sync.imagesInFlight| == |swapchain.images|
      ensures forall i :: 0 <= i < |sync.imagesInFlight| ==> sync.imagesInFlight[i] == NullHandle
      ensures gpu.trace == old(gpu.trace)
                             + SlotCreations(sync.imageAvailableSemaphores[..], sync.renderFinishedSemaphores[..],
                                             sync.inFlightFences[..])
      ensures old(gpu.live) <= gpu.live && Extends(old(gpu.info), gpu.info)
    {
      ghost var info1, live1 := gpu.info, gpu.live;
      sync.Create(gpu, |swapchain.images| as u32);
      InitReady(info0, info1, gpu.info, live0, live1, gpu.live, gpu.signalled, instance, surface, context.handle,
                context.commandPool, Owned(Objects()),
                sync.imageAvailableSemaphores, sync.renderFinishedSemaphores, sync.inFlightFences);
    }

    /** `init`: the start-up checks, the instance and messenger, the surface
        and device, then the swapchain generation, the command pool, the
        command buffers and the frame slots, in that order. A failed check or
        device selection is fatal; otherwise the renderer is ready to draw. */
    method Init(gpu: Gpu, availableLayers: seq<string>, availableExtensions: seq<string>,
                messengerLookupFound: bool, messengerResult: VkResult, devices: seq<PhysicalDevice>,
                width: u32, height: u32)
      returns (outcome: Outcome)
      requires Valid() && Initial() && gpu.Valid()
      modifies this, context, swapchain, sync, sync.imageAvailableSemaphores, sync.renderFinishedSemaphores,
               sync.inFlightFences, gpu
      ensures gpu.Valid()
      ensures !outcome.Exit?
      ensures outcome.Ok? <==> && StartupChecks(validationLayersEnabled, availableLayers, availableExtensions).Ok?
                               && FirstSuitable(devices, RequiredDeviceExtensions).Some?
      ensures !StartupChecks(validationLayersEnabled, availableLayers, availableExtensions).Ok? ==>
                && outcome == StartupChecks(validationLayersEnabled, availableLayers, availableExtensions)
                && gpu.trace == old(gpu.trace) && gpu.live == old(gpu.live)
      ensures StartupChecks(validationLayersEnabled, availableLayers, availableExtensions).Ok?
              && FirstSuitable(devices, RequiredDeviceExtensions).None? ==>
                outcome == (if |devices| == 0 then Fatal(NoVulkanGpuMessage) else Fatal(NoSuitableGpuMessage))
      ensures outcome.Ok? ==>
                && Ready(gpu)
                && requiredExtensions == EnabledExtensions(validationLayersEnabled)
                && context.physicalDevice == devices[FirstSuitable(devices, RequiredDeviceExtensions).value]
                && sync.currentFrame == old(sync.currentFrame)
                && |sync.imagesInFlight| == |swapchain.images|
                && (forall i :: 0 <= i < |sync.imagesInFlight| ==> sync.imagesInFlight[i] == NullHandle)
                && gpu.trace == old(gpu.trace)
                                 + [Call.Create(instance, InstanceInfo(EnabledLayers(validationLayersEnabled),
                                                                       EnabledExtensions(validationLayersEnabled)))]
                                 + DebugSetupCalls(validationLayersEnabled, messengerLookupFound, messengerResult,
                                                   debugMessenger)
                                 + [Call.Create(surface, SurfaceInfo)]
                                 + [Call.Create(context.handle,
                                                DeviceInfo(context.physicalDevice.handle,
                                                           QueueCreateInfos(QueueFamilies(context.physicalDevice.queueFamilies)),
                                                           EnabledLayers(validationLayersEnabled), RequiredDeviceExtensions))]
                                 + InitChainCalls(Objects(), context.commandPool,
                                                  QueueFamilies(context.physicalDevice.queueFamilies).graphicsFamily.value,
                                                  ChainCreateInfo(context.physicalDevice.support, width, height))
                                 + SlotCreations(sync.imageAvailableSemaphores[..], sync.renderFinishedSemaphores[..],
                                                 sync.inFlightFences[..])
    {
      outcome := InitInstance(gpu, availableLayers, availableExtensions, messengerLookupFound, messengerResult);
      if !outcome.Ok? {
        return;
      }
      CreateSurface(gpu);
      outcome := InitDevice(gpu, devices);
      if !outcome.Ok? {
        return;
      }
      InitSwapchain(gpu, width, height);
    }

    /** `shutdown`: waits for the device to go idle, tears down the
        generation, the frame slots, the pool and the device, then the
        surface, the messenger of a debug build (through a lookup of the
        destroy entry point, found or not) and the instance. Every object the
        renderer made is gone afterwards and nothing new is made. */
    method Shutdown(gpu: Gpu, messengerLookupFound: bool)
      requires Ready(gpu)
      modifies gpu
      ensures gpu.Valid()
      ensures gpu.trace == old(gpu.trace) + [Call.WaitIdle] + TeardownCalls(Objects(), context.commandPool)
                             + SlotDestroys(sync.imageAvailableSemaphores[..], sync.renderFinishedSemaphores[..],
                                            sync.inFlightFences[..])
                             + [Call.Destroy(context.commandPool), Call.Destroy(context.handle)]
                             + [Call.Destroy(surface)]
                             + DebugCleanupCalls(validationLayersEnabled, messengerLookupFound, debugMessenger)
                             + [Call.Destroy(instance)]
      ensures gpu.live <= old(gpu.live) - Owned(Objects()) - Persistent()
      ensures validationLayersEnabled && messengerLookupFound ==> debugMessenger !in gpu.live
      ensures gpu.info == old(gpu.info) && gpu.pending == {}
    {
      gpu.WaitIdle();
      CleanupSwapchain(gpu);
      sync.Cleanup(gpu);
      ReleaseDevice(gpu, messengerLookupFound);
    }

    /** The end of `shutdown`: pool and device, surface, messenger, instance. */
    method ReleaseDevice(gpu: Gpu, messengerLookupFound: bool)
      requires gpu.Valid()
      modifies gpu
      ensures gpu.Valid()
      ensures gpu.trace == old(gpu.trace) + [Call.Destroy(context.commandPool), Call.Destroy(context.handle)]
                             + [Call.Destroy(surface)]
                             + DebugCleanupCalls(validationLayersEnabled, messengerLookupFound, debugMessenger)
                             + [Call.Destroy(instance)]
      ensures gpu.live <= old(gpu.live) - {context.commandPool, context.handle, surface, instance}
      ensures validationLayersEnabled && messengerLookupFound ==> debugMessenger !in gpu.live
      ensures gpu.info == old(gpu.info) && gpu.signalled == old(gpu.signalled) && gpu.pending == old(gpu.pending)
    {
      context.Cleanup(gpu);
      gpu.Destroy(surface);
      if validationLayersEnabled {
        DestroyDebugUtilsMessenger(gpu, debugMessenger, messengerLookupFound);
      }
      gpu.Destroy(instance);
    }

    /** The start of `draw` once the window is not minimized: the wait on the
        frame fence, which returns because the fence is signalled or pending,
        then the acquire, which waits on nothing and signals the frame's
        image-available semaphore. */
    method BeginFrame(gpu: Gpu)
      requires Ready(gpu)
      modifies gpu
      ensures Ready(gpu)
      ensures sync.GetNextFrameFence() in gpu.signalled
      ensures gpu.trace == old(gpu.trace) + [Call.WaitForFence(sync.GetNextFrameFence()),
                                             Call.Acquire(swapchain.handle, sync.GetNextWaitSemaphore())]
      ensures gpu.signalled == old(gpu.signalled) + {sync.GetNextFrameFence()}
      ensures gpu.pending == old(gpu.pending) - {sync.GetNextFrameFence()}
      ensures gpu.info == old(gpu.info) && gpu.live == old(gpu.live)
    {
      sync.WaitFrameFence(gpu);
      gpu.Acquire(swapchain.handle, sync.GetNextWaitSemaphore());
    }

    /** The end of `draw` after a successful submission: the present waits on
        the frame's render-finished semaphore; an out-of-date or suboptimal
        result recreates the swapchain, any other failure is fatal, and
        otherwise the frame advances. */
    method PresentFrame(gpu: Gpu, imageIndex: u32, presentResult: VkResult, support: SupportDetails,
                        width: u32, height: u32)
      returns (outcome: Outcome)
      requires Ready(gpu)
      requires PresentRecreates(presentResult) ==> |support.formats| > 0
      modifies this, context, swapchain, sync, gpu
      ensures Valid()
      ensures context.physicalDevice == old(context.physicalDevice)
      ensures outcome == (if presentResult == VK_SUCCESS || PresentRecreates(presentResult) then Ok
                          else Fatal(PresentFailedMessage))
      ensures outcome.Ok? ==> Ready(gpu) && sync.currentFrame == NextFrame(old(sync.currentFrame))
      ensures !outcome.Ok? ==> sync.currentFrame == old(sync.currentFrame)
      ensures sync.imagesInFlight == old(sync.imagesInFlight)
      ensures Persistent() == old(Persistent())
      ensures gpu.trace == old(gpu.trace)
                             + ([Call.Present(old(sync.GetNextSignalSemaphore()), old(swapchain.handle), imageIndex)]
                                + (if !PresentRecreates(presentResult) then []
                                   else RecreateCalls(old(Objects()), Objects(), context.commandPool,
                                                      ChainCreateInfo(support, width, height))))
      ensures PresentRecreates(presentResult) ==>
                && gpu.live == old(gpu.live) - Owned(old(Objects())) + Owned(Objects())
                && gpu.signalled == old(gpu.signalled) + old(gpu.pending) && gpu.pending == {}
      ensures !PresentRecreates(presentResult) ==>
                && Objects() == old(Objects()) && gpu.live == old(gpu.live)
                && gpu.signalled == old(gpu.signalled) && gpu.pending == old(gpu.pending)
    {
      ghost var present := Call.Present(sync.GetNextSignalSemaphore(), swapchain.handle, imageIndex);
      gpu.Present(sync.GetNextSignalSemaphore(), swapchain.handle, imageIndex);
      if PresentRecreates(presentResult) {
        RecreateSwapchain(gpu, support, width, height);
        SeqRegroup(old(gpu.trace), [present],
                   RecreateCalls(old(Objects()), Objects(), context.commandPool, ChainCreateInfo(support, width, height)));
      } else if presentResult != VK_SUCCESS {
        return Fatal(PresentFailedMessage);
      }
      AdvanceFrame(gpu);
      outcome := Ok;
    }

    /** `syncObjects.IncrementFrame()` at the end of a frame: only the frame
        index moves, so the renderer stays ready. */
    method AdvanceFrame(gpu: Gpu)
      requires Ready(gpu)
      modifies sync
      ensures Ready(gpu)
      ensures sync.currentFrame == NextFrame(old(sync.currentFrame))
      ensures sync.imagesInFlight == old(sync.imagesInFlight)
      ensures Persistent() == old(Persistent())
    {
      sync.IncrementFrame();
    }

    /** `draw` from the image-fence wait on, once an image was acquired: the
        submission of the image's command buffer, then the present. */
    method DrawAcquired(gpu: Gpu, imageIndex: u32, submitResult: VkResult, presentResult: VkResult,
                        support: SupportDetails, width: u32, height: u32)
      returns (outcome: Outcome)
      requires Ready(gpu) && sync.GetNextFrameFence() in gpu.signalled
      requires imageIndex < |swapchain.images| && imageIndex < |sync.imagesInFlight|
      requires submitResult == VK_SUCCESS && PresentRecreates(presentResult) ==> |support.formats| > 0
      modifies this, context, swapchain, sync, gpu
      ensures Valid()
      ensures context.physicalDevice == old(context.physicalDevice)
      ensures outcome.Ok? ==> Ready(gpu)
      ensures Persistent() == old(Persistent())
      ensures sync.imagesInFlight == old(sync.imagesInFlight)[imageIndex := old(sync.GetNextFrameFence())]
      ensures outcome == FrameOutcome(submitResult, presentResult)
      ensures sync.currentFrame == (if outcome.Ok? then NextFrame(old(sync.currentFrame)) else old(sync.currentFrame))
      ensures gpu.trace == old(gpu.trace)
                             + SubmitCalls(old(sync.imagesInFlight[imageIndex]), old(sync.GetNextFrameFence()),
                                           old(context.commandBuffers[imageIndex]),
                                           old(sync.GetNextWaitSemaphore()), old(sync.GetNextSignalSemaphore()))
                             + (if submitResult != VK_SUCCESS then []
                                else [Call.Present(old(sync.GetNextSignalSemaphore()), old(swapchain.handle), imageIndex)]
                                     + (if !PresentRecreates(presentResult) then []
                                        else RecreateCalls(old(Objects()), Objects(), context.commandPool,
                                                           ChainCreateInfo(support, width, height))))
    {
      SubmitFrame(gpu, sync, context.commandBuffers[imageIndex], imageIndex, submitResult);
      if submitResult != VK_SUCCESS {
        return Fatal(SubmitFailedMessage);
      }
      outcome := PresentFrame(gpu, imageIndex, presentResult, support, width, height);
    }

    /** `draw` after the frame-fence wait and the acquire: an out-of-date
        acquire recreates the swapchain and ends the frame before the fence
        is reset, any other failure but a suboptimal acquire is fatal, and a
        successful one goes on to the submission and the present. */
    method AfterAcquire(gpu: Gpu, acquireResult: VkResult, imageIndex: u32, submitResult: VkResult,
                presentResult: VkResult, support: SupportDetails, width: u32, height: u32)
      returns (outcome: Outcome)
      requires Ready(gpu) && sync.GetNextFrameFence() in gpu.signalled
      requires Recreates(false, acquireResult, submitResult, presentResult) ==> |support.formats| > 0
      requires AcquireProceeds(acquireResult) ==>
                 imageIndex < |swapchain.images| && imageIndex < |sync.imagesInFlight|
      modifies this, context, swapchain, sync, gpu
      ensures Valid()
      ensures context.physicalDevice == old(context.physicalDevice)
      ensures !outcome.Exit?
      ensures outcome.Ok? ==> Ready(gpu)
      ensures Persistent() == old(Persistent())
      ensures acquireResult == VK_ERROR_OUT_OF_DATE_KHR ==>
                && outcome == Ok
                && gpu.trace == old(gpu.trace) + RecreateCalls(old(Objects()), Objects(), context.commandPool,
                                                 ChainCreateInfo(support, width, height))
                && old(sync.GetNextFrameFence()) in gpu.signalled
                && sync.currentFrame == old(sync.currentFrame) && sync.imagesInFlight == old(sync.imagesInFlight)
      ensures acquireResult != VK_ERROR_OUT_OF_DATE_KHR && !AcquireProceeds(acquireResult) ==>
                && outcome == Fatal(AcquireFailedMessage)
                && gpu.trace == old(gpu.trace)
      ensures AcquireProceeds(acquireResult) ==>
                && sync.imagesInFlight == old(sync.imagesInFlight)[imageIndex := old(sync.GetNextFrameFence())]
                && outcome == FrameOutcome(submitResult, presentResult)
                && sync.currentFrame == (if outcome.Ok? then NextFrame(old(sync.currentFrame)) else old(sync.currentFrame))
                && gpu.trace == old(gpu.trace) + SubmitCalls(old(sync.imagesInFlight[imageIndex]), old(sync.GetNextFrameFence()),
                                               old(context.commandBuffers[imageIndex]),
                                               old(sync.GetNextWaitSemaphore()), old(sync.GetNextSignalSemaphore()))
                                 + (if submitResult != VK_SUCCESS then []
                                    else [Call.Present(old(sync.GetNextSignalSemaphore()), old(swapchain.handle), imageIndex)]
                                         + (if !PresentRecreates(presentResult) then []
                                            else RecreateCalls(old(Objects()), Objects(), context.commandPool,
                                                               ChainCreateInfo(support, width, height))))
    {
      if acquireResult == VK_ERROR_OUT_OF_DATE_KHR {
        RecreateSwapchain(gpu, support, width, height);
        return Ok;
      } else if !AcquireProceeds(acquireResult) {
        return Fatal(AcquireFailedMessage);
      }
      outcome := DrawAcquired(gpu, imageIndex, submitResult, presentResult, support, width, height);
    }


    /** `draw` for a window that is not minimized: the frame fence is waited
        on and an image acquired; an out-of-date acquire recreates the
        swapchain and ends the frame before the fence is reset, any other
        failure but a suboptimal acquire is fatal, and a successful one goes
        on to the submission and the present. */
    method DrawFrame(gpu: Gpu, acquireResult: VkResult, imageIndex: u32, submitResult: VkResult,
                presentResult: VkResult, support: SupportDetails, width: u32, height: u32)
      returns (outcome: Outcome)
      requires Ready(gpu)
      requires Recreates(false, acquireResult, submitResult, presentResult) ==> |support.formats| > 0
      requires AcquireProceeds(acquireResult) ==>
                 imageIndex < |swapchain.images| && imageIndex < |sync.imagesInFlight|
      modifies this, context, swapchain, sync, gpu
      ensures Valid()
      ensures context.physicalDevice == old(context.physicalDevice)
      ensures !outcome.Exit?
      ensures outcome.Ok? ==> Ready(gpu)
      ensures Persistent() == old(Persistent())
      ensures acquireResult == VK_ERROR_OUT_OF_DATE_KHR ==>
                && outcome == Ok
                && gpu.trace == old(gpu.trace) + [Call.WaitForFence(old(sync.GetNextFrameFence())),
                                                  Call.Acquire(old(swapchain.handle), old(sync.GetNextWaitSemaphore()))]
                                 + RecreateCalls(old(Objects()), Objects(), context.commandPool,
                                                 ChainCreateInfo(support, width, height))
                && old(sync.GetNextFrameFence()) in gpu.signalled
                && sync.currentFrame == old(sync.currentFrame) && sync.imagesInFlight == old(sync.imagesInFlight)
      ensures acquireResult != VK_ERROR_OUT_OF_DATE_KHR && !AcquireProceeds(acquireResult) ==>
                && outcome == Fatal(AcquireFailedMessage)
                && gpu.trace == old(gpu.trace) + [Call.WaitForFence(old(sync.GetNextFrameFence())),
                                                  Call.Acquire(old(swapchain.handle), old(sync.GetNextWaitSemaphore()))]
      ensures AcquireProceeds(acquireResult) ==>
                && sync.imagesInFlight == old(sync.imagesInFlight)[imageIndex := old(sync.GetNextFrameFence())]
                && outcome == FrameOutcome(submitResult, presentResult)
                && sync.currentFrame == (if outcome.Ok? then NextFrame(old(sync.currentFrame)) else old(sync.currentFrame))
                && gpu.trace == old(gpu.trace) + [Call.WaitForFence(old(sync.GetNextFrameFence())),
                                                  Call.Acquire(old(swapchain.handle), old(sync.GetNextWaitSemaphore()))]
                                 + SubmitCalls(old(sync.imagesInFlight[imageIndex]), old(sync.GetNextFrameFence()),
                                               old(context.commandBuffers[imageIndex]),
                                               old(sync.GetNextWaitSemaphore()), old(sync.GetNextSignalSemaphore()))
                                 + (if submitResult != VK_SUCCESS then []
                                    else [Call.Present(old(sync.GetNextSignalSemaphore()), old(swapchain.handle), imageIndex)]
                                         + (if !PresentRecreates(presentResult) then []
                                            else RecreateCalls(old(Objects()), Objects(), context.commandPool,
                                                               ChainCreateInfo(support, width, height))))
    {
      BeginFrame(gpu);
      outcome := AfterAcquire(gpu, acquireResult, imageIndex, submitResult, presentResult, support, width, height);
    }

    /** `draw`: nothing happens while the window is minimized; otherwise one
        frame is drawn. */
    method Draw(gpu: Gpu, minimized: bool, acquireResult: VkResult, imageIndex: u32, submitResult: VkResult,
                presentResult: VkResult, support: SupportDetails, width: u32, height: u32)
      returns (outcome: Outcome)
      requires Ready(gpu)
      requires Recreates(minimized, acquireResult, submitResult, presentResult) ==> |support.formats| > 0
      requires !minimized && AcquireProceeds(acquireResult) ==>
                 imageIndex < |swapchain.images| && imageIndex < |sync.imagesInFlight|
      modifies this, context, swapchain, sync, gpu
      ensures Valid()
      ensures context.physicalDevice == old(context.physicalDevice)
      ensures !outcome.Exit?
      ensures outcome.Ok? ==> Ready(gpu)
      ensures Persistent() == old(Persistent())
      ensures minimized ==>
                && outcome == Ok && gpu.trace == old(gpu.trace) && gpu.live == old(gpu.live)
                && gpu.signalled == old(gpu.signalled) && gpu.pending == old(gpu.pending)
                && Objects() == old(Objects())
                && sync.currentFrame == old(sync.currentFrame) && sync.imagesInFlight == old(sync.imagesInFlight)
      ensures !minimized && acquireResult == VK_ERROR_OUT_OF_DATE_KHR ==>
                && outcome == Ok
                && gpu.trace == old(gpu.trace) + [Call.WaitForFence(old(sync.GetNextFrameFence())),
                                                  Call.Acquire(old(swapchain.handle), old(sync.GetNextWaitSemaphore()))]
                                 + RecreateCalls(old(Objects()), Objects(), context.commandPool,
                                                 ChainCreateInfo(support, width, height))
                && old(sync.GetNextFrameFence()) in gpu.signalled
                && sync.currentFrame == old(sync.currentFrame) && sync.imagesInFlight == old(sync.imagesInFlight)
      ensures !minimized && acquireResult != VK_ERROR_OUT_OF_DATE_KHR && !AcquireProceeds(acquireResult) ==>
                && outcome == Fatal(AcquireFailedMessage)
                && gpu.trace == old(gpu.trace) + [Call.WaitForFence(old(sync.GetNextFrameFence())),
                                                  Call.Acquire(old(swapchain.handle), old(sync.GetNextWaitSemaphore()))]
      ensures !minimized && AcquireProceeds(acquireResult) ==>
                && sync.imagesInFlight == old(sync.imagesInFlight)[imageIndex := old(sync.GetNextFrameFence())]
                && outcome == FrameOutcome(submitResult, presentResult)
                && sync.currentFrame == (if outcome.Ok? then NextFrame(old(sync.currentFrame)) else old(sync.currentFrame))
                && gpu.trace == old(gpu.trace) + [Call.WaitForFence(old(sync.GetNextFrameFence())),
                                                  Call.Acquire(old(swapchain.handle), old(sync.GetNextWaitSemaphore()))]
                                 + SubmitCalls(old(sync.imagesInFlight[imageIndex]), old(sync.GetNextFrameFence()),
                                               old(context.commandBuffers[imageIndex]),
                                               old(sync.GetNextWaitSemaphore()), old(sync.GetNextSignalSemaphore()))
                                 + (if submitResult != VK_SUCCESS then []
                                    else [Call.Present(old(sync.GetNextSignalSemaphore()), old(swapchain.handle), imageIndex)]
                                         + (if !PresentRecreates(presentResult) then []
                                            else RecreateCalls(old(Objects()), Objects(), context.commandPool,
                                                               ChainCreateInfo(support, width, height))))
    {
      if minimized {
        return Ok;
      }
      outcome := DrawFrame(gpu, acquireResult, imageIndex, submitResult, presentResult, support, width, height);
    }
  }
}
