/** The renderer (`rp::gfx`): start-up, the per-frame draw, swapchain
    recreation and shutdown, over the abstract driver. The renderer's globals
    are the fields of one `Renderer` object; the queue-family scan, device
    selection, swapchain and frame-synchronisation steps it shares with the
    other graphics files are the members modelled there. */
module Gfx {
  import opened Wrappers
  import opened Vulkan
  import opened VulkanQueue
  import opened VulkanDevice
  import opened Swapchain
  import opened FrameSync
  import opened Validation
  import opened VulkanValidation

  const SurfaceExtension: string := "VK_KHR_surface"
  const Win32SurfaceExtension: string := "VK_KHR_win32_surface"
  const DebugUtilsExtension: string := "VK_EXT_debug_utils"
  const SwapchainExtension: string := "VK_KHR_swapchain"

  /** The initial value of `requiredExtensions`. */
  const InitialRequiredExtensions: seq<string> := [SurfaceExtension, Win32SurfaceExtension]
  const RequiredDeviceExtensions: seq<string> := [SwapchainExtension]

  const ShaderDir: string := "../../../../../shaders/"
  const VertexShaderPath: string := ShaderDir + "vert.spv"
  const FragmentShaderPath: string := ShaderDir + "frag.spv"

  /** Every command buffer draws one triangle. */
  const TriangleVertexCount: nat := 3

  const NoVulkanGpuMessage: string := "Unable to find Vulkan-supported GPU!"
  const NoSuitableGpuMessage: string := "Unable to find suitable GPU!"
  const AcquireFailedMessage: string := "Failed to acquire swapchain image"
  const SubmitFailedMessage: string := "Failed to submit draw command buffer"
  const PresentFailedMessage: string := "failed to present swap chain image!"

  /** The instance layers: the validation layer in a debug build, none
      otherwise. */
  function EnabledLayers(validation: bool): (r: seq<string>)
    ensures validation ==> r == ValidationLayers
    ensures !validation ==> r == []
  {
    if validation then ValidationLayers else []
  }

  /** `requiredExtensions` once `init` has passed the layer check: the debug
      build adds the debug-utils extension. */
  function EnabledExtensions(validation: bool): (r: seq<string>)
    ensures |r| >= 2 && r[..2] == InitialRequiredExtensions
    ensures validation <==> |r| == 3
    ensures validation ==> r[2] == DebugUtilsExtension
  {
    if validation then InitialRequiredExtensions + [DebugUtilsExtension] else InitialRequiredExtensions
  }

  /** The two checks `init` makes before creating the instance: in a debug
      build the validation layer must be available, and then every required
      instance extension. The first failure is reported. */
  function StartupChecks(validation: bool, availableLayers: seq<string>, availableExtensions: seq<string>): (r: Outcome)
    ensures !r.Exit?
    ensures r.Ok? <==> && (validation ==> forall i :: 0 <= i < |ValidationLayers| ==> ValidationLayers[i] in availableLayers)
                       && (forall i :: 0 <= i < |EnabledExtensions(validation)| ==>
                             EnabledExtensions(validation)[i] in availableExtensions)
    ensures validation && VerifyNames("Layer", ValidationLayers, availableLayers).Fatal? ==>
              r == VerifyNames("Layer", ValidationLayers, availableLayers)
  {
    if validation && VerifyNames("Layer", ValidationLayers, availableLayers).Fatal? then
      VerifyNames("Layer", ValidationLayers, availableLayers)
    else
      VerifyNames("Extension", EnabledExtensions(validation), availableExtensions)
  }

  /** Everything built for one swapchain: the swapchain and its images, views
      and framebuffers, the render pass, the shader modules and pipeline, and
      the command buffers recorded against them. */
  datatype SwapchainObjects = SwapchainObjects(
    swapchain: Handle, format: Format, extent: Extent2D,
    images: seq<Handle>, views: seq<Handle>, frameBuffers: seq<Handle>,
    renderPass: Handle, vertexShader: Handle, fragmentShader: Handle,
    pipelineLayout: Handle, pipeline: Handle, commandBuffers: seq<Handle>)
  {
    /** One view and one framebuffer per image. */
    predicate Sized() {
      |views| == |images| && |frameBuffers| == |views|
    }

    /** ... and one command buffer per framebuffer. */
    predicate WellSized() {
      Sized() && |commandBuffers| == |frameBuffers|
    }
  }

  /** The objects of one swapchain generation that stay alive until it is
      torn down, command buffers excepted. */
  function ChainOwned(o: SwapchainObjects): set<Handle> {
    {o.swapchain, o.renderPass, o.pipelineLayout, o.pipeline} + Elements(o.views) + Elements(o.frameBuffers)
  }

  /** All objects of one swapchain generation that stay alive. */
  function Owned(o: SwapchainObjects): set<Handle> {
    ChainOwned(o) + Elements(o.commandBuffers)
  }

  /** `createRenderPass` and `createGraphicsPipeline`: the render pass, both
      shader modules, the layout and the pipeline; the modules are destroyed
      once the pipeline exists. */
  function PipelineCalls(o: SwapchainObjects): seq<Call> {
    [Call.Create(o.renderPass, RenderPassInfo(o.format)),
     Call.Create(o.vertexShader, ShaderModuleInfo(VertexShaderPath)),
     Call.Create(o.fragmentShader, ShaderModuleInfo(FragmentShaderPath)),
     Call.Create(o.pipelineLayout, PipelineLayoutInfo),
     Call.Create(o.pipeline, PipelineInfo(o.vertexShader, o.fragmentShader, o.pipelineLayout, o.renderPass, o.extent)),
     Call.Destroy(o.fragmentShader),
     Call.Destroy(o.vertexShader)]
  }

  /** The calls from `createSwapchain` to `createSwapchainFramebuffers`. */
  function ChainCalls(o: SwapchainObjects, createInfo: Info): seq<Call>
    requires o.Sized()
  {
    [Call.Create(o.swapchain, createInfo)] + Creations(o.views, ViewInfos(o.images, o.format))
      + PipelineCalls(o) + Creations(o.frameBuffers, FramebufferInfos(o.renderPass, o.views, o.extent))
  }

  /** The recording loop of `createCommandBuffers`: buffer i draws the
      triangle into framebuffer i. */
  function Recordings(buffers: seq<Handle>, renderPass: Handle, frameBuffers: seq<Handle>, extent: Extent2D,
                      pipeline: Handle): (r: seq<Call>)
    requires |buffers| == |frameBuffers|
    ensures |r| == |buffers|
    ensures forall i {:trigger r[i]} :: 0 <= i < |buffers| ==>
              r[i] == Record(buffers[i], renderPass, frameBuffers[i], extent, pipeline, TriangleVertexCount)
  {
    if buffers == [] then []
    else
      var n := |buffers| - 1;
      Recordings(buffers[..n], renderPass, frameBuffers[..n], extent, pipeline)
        + [Record(buffers[n], renderPass, frameBuffers[n], extent, pipeline, TriangleVertexCount)]
  }

  lemma {:induction false} RecordingsAppend(t0: seq<Call>, t1: seq<Call>, buffers: seq<Handle>, renderPass: Handle,
                                            frameBuffers: seq<Handle>, extent: Extent2D, pipeline: Handle, i: nat)
    requires i < |buffers| == |frameBuffers|
    requires t1 == t0 + Recordings(buffers[..i], renderPass, frameBuffers[..i], extent, pipeline)
    ensures t1 + [Record(buffers[i], renderPass, frameBuffers[i], extent, pipeline, TriangleVertexCount)]
         == t0 + Recordings(buffers[..i + 1], renderPass, frameBuffers[..i + 1], extent, pipeline)
  {
    assert buffers[..i + 1][..i] == buffers[..i] && frameBuffers[..i + 1][..i] == frameBuffers[..i];
  }

  /** `createCommandBuffers`: one allocation, then the recordings. */
  function CommandBufferCalls(o: SwapchainObjects, pool: Handle): seq<Call>
    requires o.WellSized()
  {
    [Call.AllocateCommandBuffers(pool, o.commandBuffers)]
      + Recordings(o.commandBuffers, o.renderPass, o.frameBuffers, o.extent, o.pipeline)
  }

  /** The calls with which `recreateSwapchain` rebuilds a generation. */
  function RebuildCalls(o: SwapchainObjects, pool: Handle, createInfo: Info): seq<Call>
    requires o.WellSized()
  {
    ChainCalls(o, createInfo) + CommandBufferCalls(o, pool)
  }

  /** `cleanupSwapchain`: framebuffers, command buffers, pipeline, layout,
      render pass, views, swapchain. */
  function TeardownCalls(o: SwapchainObjects, pool: Handle): seq<Call> {
    DestroyEach(o.frameBuffers)
      + [Call.FreeCommandBuffers(pool, o.commandBuffers), Call.Destroy(o.pipeline), Call.Destroy(o.pipelineLayout),
         Call.Destroy(o.renderPass)]
      + DestroyEach(o.views) + [Call.Destroy(o.swapchain)]
  }

  /** Call `a` occurs in `t` before call `b`. */
  ghost predicate Before(t: seq<Call>, a: Call, b: Call)
    decreases |t|
  {
    t != [] && ((t[0] == a && b in t[1..]) || Before(t[1..], a, b))
  }

  /** `Before` holds exactly when there are two positions in that order. */
  lemma {:induction false} BeforeIff(t: seq<Call>, a: Call, b: Call)
    decreases |t|
    ensures Before(t, a, b) <==> exists i, j :: 0 <= i < j < |t| && t[i] == a && t[j] == b
  {
    if t != [] {
      BeforeIff(t[1..], a, b);
      if Before(t, a, b) {
        if t[0] == a && b in t[1..] {
          var j :| 0 <= j < |t[1..]| && t[1..][j] == b;
          assert t[0] == a && t[j + 1] == b;
        } else {
          var i, j :| 0 <= i < j < |t[1..]| && t[1..][i] == a && t[1..][j] == b;
          assert t[i + 1] == a && t[j + 1] == b;
        }
      }
      if exists i, j :: 0 <= i < j < |t| && t[i] == a && t[j] == b {
        var i, j :| 0 <= i < j < |t| && t[i] == a && t[j] == b;
        if i == 0 {
          assert t[1..][j - 1] == b;
        } else {
          assert t[1..][i - 1] == a && t[1..][j - 1] == b;
        }
      }
    }
  }

  /** Two positions of a trace witness the order of their calls. */
  lemma {:induction false} BeforeAt(t: seq<Call>, i: nat, j: nat)
    requires i < j < |t|
    ensures Before(t, t[i], t[j])
  {
    if i == 0 {
      assert t[1..][j - 1] == t[j];
    } else {
      BeforeAt(t[1..], i - 1, j - 1);
      assert t[1..][i - 1] == t[i] && t[1..][j - 1] == t[j];
    }
  }

  /** Calls `a` and `b` at two positions in that order. */
  lemma BeforeVia(t: seq<Call>, i: nat, j: nat, a: Call, b: Call)
    requires i < j < |t| && t[i] == a && t[j] == b
    ensures Before(t, a, b)
  {
    BeforeAt(t, i, j);
  }

  /** Where the framebuffer destructions of a teardown sit. */
  lemma {:induction false} TeardownFramebufferAt(o: SwapchainObjects, pool: Handle, i: nat)
    requires i < |o.frameBuffers|
    ensures TeardownCalls(o, pool)[i] == Call.Destroy(o.frameBuffers[i])
  {
    var a := DestroyEach(o.frameBuffers);
    assert TeardownCalls(o, pool)[i] == a[i];
  }

  /** Where the five single calls of a teardown sit. */
  lemma {:induction false} TeardownMiddleAt(o: SwapchainObjects, pool: Handle)
    ensures var t, nf, nv := TeardownCalls(o, pool), |o.frameBuffers|, |o.views|;
            && |t| == nf + 5 + nv
            && t[nf] == Call.FreeCommandBuffers(pool, o.commandBuffers) && t[nf + 1] == Call.Destroy(o.pipeline)
            && t[nf + 2] == Call.Destroy(o.pipelineLayout) && t[nf + 3] == Call.Destroy(o.renderPass)
            && t[nf + 4 + nv] == Call.Destroy(o.swapchain)
  {
  }

  /** Where the view destructions of a teardown sit. */
  lemma {:induction false} TeardownViewAt(o: SwapchainObjects, pool: Handle, i: nat)
    requires i < |o.views|
    ensures TeardownCalls(o, pool)[|o.frameBuffers| + 4 + i] == Call.Destroy(o.views[i])
  {
    var nf := |o.frameBuffers|;
    var b := DestroyEach(o.frameBuffers)
      + [Call.FreeCommandBuffers(pool, o.commandBuffers), Call.Destroy(o.pipeline), Call.Destroy(o.pipelineLayout),
         Call.Destroy(o.renderPass)];
    var c := b + DestroyEach(o.views);
    assert TeardownCalls(o, pool) == c + [Call.Destroy(o.swapchain)];
    assert c[nf + 4 + i] == DestroyEach(o.views)[i];
  }

  /** Teardown releases every object before the objects it was made from:
      framebuffer i before view i and the render pass, the command buffers
      and the pipeline before the pipeline's layout and render pass, every
      view before the swapchain. */
  lemma {:induction false} TeardownOrder(o: SwapchainObjects, pool: Handle)
    requires o.Sized()
    ensures var t := TeardownCalls(o, pool);
            && (forall i :: 0 <= i < |o.frameBuffers| ==>
                  && Before(t, Call.Destroy(o.frameBuffers[i]), Call.Destroy(o.views[i]))
                  && Before(t, Call.Destroy(o.frameBuffers[i]), Call.Destroy(o.renderPass)))
            && Before(t, Call.FreeCommandBuffers(pool, o.commandBuffers), Call.Destroy(o.pipeline))
            && Before(t, Call.Destroy(o.pipeline), Call.Destroy(o.pipelineLayout))
            && Before(t, Call.Destroy(o.pipeline), Call.Destroy(o.renderPass))
            && (forall i :: 0 <= i < |o.views| ==> Before(t, Call.Destroy(o.views[i]), Call.Destroy(o.swapchain)))
  {
    var t, nf, nv := TeardownCalls(o, pool), |o.frameBuffers|, |o.views|;
    TeardownMiddleAt(o, pool);
    BeforeVia(t, nf, nf + 1, Call.FreeCommandBuffers(pool, o.commandBuffers), Call.Destroy(o.pipeline));
    BeforeVia(t, nf + 1, nf + 2, Call.Destroy(o.pipeline), Call.Destroy(o.pipelineLayout));
    BeforeVia(t, nf + 1, nf + 3, Call.Destroy(o.pipeline), Call.Destroy(o.renderPass));
    forall i | 0 <= i < nf
      ensures Before(t, Call.Destroy(o.frameBuffers[i]), Call.Destroy(o.views[i]))
      ensures Before(t, Call.Destroy(o.frameBuffers[i]), Call.Destroy(o.renderPass))
    {
      TeardownFramebufferAt(o, pool, i);
      TeardownViewAt(o, pool, i);
      BeforeVia(t, i, nf + 4 + i, Call.Destroy(o.frameBuffers[i]), Call.Destroy(o.views[i]));
      BeforeVia(t, i, nf + 3, Call.Destroy(o.frameBuffers[i]), Call.Destroy(o.renderPass));
    }
    forall i | 0 <= i < nv
      ensures Before(t, Call.Destroy(o.views[i]), Call.Destroy(o.swapchain))
    {
      TeardownViewAt(o, pool, i);
      BeforeVia(t, nf + 4 + i, nf + 4 + nv, Call.Destroy(o.views[i]), Call.Destroy(o.swapchain));
    }
  }

  /** A call of the first part of a trace comes before every call of the
      second. */
  lemma BeforeAcross(s: seq<Call>, u: seq<Call>, a: Call, b: Call)
    requires a in s && b in u
    ensures Before(s + u, a, b)
  {
    var i :| 0 <= i < |s| && s[i] == a;
    var j :| 0 <= j < |u| && u[j] == b;
    BeforeVia(s + u, i, |s| + j, a, b);
  }

  /** Appending calls keeps an order. */
  lemma BeforeLeft(s: seq<Call>, u: seq<Call>, a: Call, b: Call)
    requires Before(s, a, b)
    ensures Before(s + u, a, b)
  {
    BeforeIff(s, a, b);
    var i, j :| 0 <= i < j < |s| && s[i] == a && s[j] == b;
    BeforeVia(s + u, i, j, a, b);
  }

  /** Prepending calls keeps an order. */
  lemma BeforeRight(s: seq<Call>, u: seq<Call>, a: Call, b: Call)
    requires Before(u, a, b)
    ensures Before(s + u, a, b)
  {
    BeforeIff(u, a, b);
    var i, j :| 0 <= i < j < |u| && u[i] == a && u[j] == b;
    BeforeVia(s + u, |s| + i, |s| + j, a, b);
  }

  /** An order within the chain holds in the whole rebuild. */
  lemma ChainOrderInRebuild(o: SwapchainObjects, pool: Handle, createInfo: Info, a: Call, b: Call)
    requires o.WellSized()
    requires Before(ChainCalls(o, createInfo), a, b)
    ensures Before(RebuildCalls(o, pool, createInfo), a, b)
  {
    BeforeLeft(ChainCalls(o, createInfo), CommandBufferCalls(o, pool), a, b);
  }

  /** A rebuild creates the swapchain before every view. */
  lemma {:induction false} RebuildViewOrder(o: SwapchainObjects, pool: Handle, createInfo: Info)
    requires o.WellSized()
    ensures forall i :: 0 <= i < |o.views| ==>
              Before(RebuildCalls(o, pool, createInfo), Call.Create(o.swapchain, createInfo),
                     Call.Create(o.views[i], ImageViewInfo(o.images[i], o.format)))
  {
    var sc := [Call.Create(o.swapchain, createInfo)];
    var views := Creations(o.views, ViewInfos(o.images, o.format));
    var p, f := PipelineCalls(o), Creations(o.frameBuffers, FramebufferInfos(o.renderPass, o.views, o.extent));
    assert ChainCalls(o, createInfo) == sc + views + p + f;
    forall i | 0 <= i < |o.views|
      ensures Before(RebuildCalls(o, pool, createInfo), Call.Create(o.swapchain, createInfo),
                     Call.Create(o.views[i], ImageViewInfo(o.images[i], o.format)))
    {
      var v := Call.Create(o.views[i], ImageViewInfo(o.images[i], o.format));
      assert views[i] == v;
      BeforeAcross(sc, views, sc[0], v);
      BeforeLeft(sc + views, p, sc[0], v);
      BeforeLeft(sc + views + p, f, sc[0], v);
      ChainOrderInRebuild(o, pool, createInfo, sc[0], v);
    }
  }

  /** A rebuild creates the render pass, the layout and the shader modules
      before the pipeline, and destroys the modules only after it. */
  lemma {:induction false} RebuildPipelineOrder(o: SwapchainObjects, pool: Handle, createInfo: Info)
    requires o.WellSized()
    ensures var t := RebuildCalls(o, pool, createInfo);
            var pipelineInfo := PipelineInfo(o.vertexShader, o.fragmentShader, o.pipelineLayout, o.renderPass, o.extent);
            && Before(t, Call.Create(o.renderPass, RenderPassInfo(o.format)), Call.Create(o.pipeline, pipelineInfo))
            && Before(t, Call.Create(o.pipelineLayout, PipelineLayoutInfo), Call.Create(o.pipeline, pipelineInfo))
            && Before(t, Call.Create(o.vertexShader, ShaderModuleInfo(VertexShaderPath)), Call.Create(o.pipeline, pipelineInfo))
            && Before(t, Call.Create(o.fragmentShader, ShaderModuleInfo(FragmentShaderPath)), Call.Create(o.pipeline, pipelineInfo))
            && Before(t, Call.Create(o.pipeline, pipelineInfo), Call.Destroy(o.vertexShader))
            && Before(t, Call.Create(o.pipeline, pipelineInfo), Call.Destroy(o.fragmentShader))
  {
    PipelineOrderInRebuild(o, pool, createInfo, 0, 4);
    PipelineOrderInRebuild(o, pool, createInfo, 1, 4);
    PipelineOrderInRebuild(o, pool, createInfo, 2, 4);
    PipelineOrderInRebuild(o, pool, createInfo, 3, 4);
    PipelineOrderInRebuild(o, pool, createInfo, 4, 5);
    PipelineOrderInRebuild(o, pool, createInfo, 4, 6);
  }

  /** An order within the pipeline calls holds in the whole rebuild. */
  lemma PipelineOrderInRebuild(o: SwapchainObjects, pool: Handle, createInfo: Info, k: nat, m: nat)
    requires o.WellSized() && k < m < 7
    ensures Before(RebuildCalls(o, pool, createInfo), PipelineCalls(o)[k], PipelineCalls(o)[m])
  {
    var sc := [Call.Create(o.swapchain, createInfo)];
    var views := Creations(o.views, ViewInfos(o.images, o.format));
    var p, f := PipelineCalls(o), Creations(o.frameBuffers, FramebufferInfos(o.renderPass, o.views, o.extent));
    assert ChainCalls(o, createInfo) == sc + views + p + f;
    BeforeVia(p, k, m, p[k], p[m]);
    BeforeRight(sc + views, p, p[k], p[m]);
    BeforeLeft(sc + views + p, f, p[k], p[m]);
    ChainOrderInRebuild(o, pool, createInfo, p[k], p[m]);
  }

  /** Framebuffer i is created after view i and the render pass. */
  lemma {:induction false} FramebufferAfterSources(o: SwapchainObjects, pool: Handle, createInfo: Info, i: nat)
    requires o.WellSized() && i < |o.frameBuffers|
    ensures var t := RebuildCalls(o, pool, createInfo);
            var fb := Call.Create(o.frameBuffers[i], FramebufferInfo(o.renderPass, o.views[i], o.extent));
            && Before(t, Call.Create(o.views[i], ImageViewInfo(o.images[i], o.format)), fb)
            && Before(t, Call.Create(o.renderPass, RenderPassInfo(o.format)), fb)
  {
    var sc := [Call.Create(o.swapchain, createInfo)];
    var views := Creations(o.views, ViewInfos(o.images, o.format));
    var p, f := PipelineCalls(o), Creations(o.frameBuffers, FramebufferInfos(o.renderPass, o.views, o.extent));
    assert ChainCalls(o, createInfo) == sc + views + p + f;
    var v := Call.Create(o.views[i], ImageViewInfo(o.images[i], o.format));
    var fb := Call.Create(o.frameBuffers[i], FramebufferInfo(o.renderPass, o.views[i], o.extent));
    assert views[i] == v && f[i] == fb && (sc + views + p)[|views| + 1] == p[0];
    BeforeAcross(sc + views + p, f, v, fb);
    BeforeAcross(sc + views + p, f, p[0], fb);
    ChainOrderInRebuild(o, pool, createInfo, v, fb);
    ChainOrderInRebuild(o, pool, createInfo, p[0], fb);
  }

  /** Command buffer i is recorded after framebuffer i is created and the
      buffers are allocated. */
  lemma {:induction false} RecordAfterFramebuffer(o: SwapchainObjects, pool: Handle, createInfo: Info, i: nat)
    requires o.WellSized() && i < |o.frameBuffers|
    ensures var t := RebuildCalls(o, pool, createInfo);
            var rec := Call.Record(o.commandBuffers[i], o.renderPass, o.frameBuffers[i], o.extent, o.pipeline,
                                   TriangleVertexCount);
            && Before(t, Call.Create(o.frameBuffers[i], FramebufferInfo(o.renderPass, o.views[i], o.extent)), rec)
            && Before(t, Call.AllocateCommandBuffers(pool, o.commandBuffers), rec)
  {
    var chain := ChainCalls(o, createInfo);
    var f := Creations(o.frameBuffers, FramebufferInfos(o.renderPass, o.views, o.extent));
    var alloc := [Call.AllocateCommandBuffers(pool, o.commandBuffers)];
    var r := Recordings(o.commandBuffers, o.renderPass, o.frameBuffers, o.extent, o.pipeline);
    var fb := Call.Create(o.frameBuffers[i], FramebufferInfo(o.renderPass, o.views[i], o.extent));
    var rec := Call.Record(o.commandBuffers[i], o.renderPass, o.frameBuffers[i], o.extent, o.pipeline,
                           TriangleVertexCount);
    assert f[i] == fb && r[i] == rec;
    assert chain == [Call.Create(o.swapchain, createInfo)] + Creations(o.views, ViewInfos(o.images, o.format))
                    + PipelineCalls(o) + f;
    assert fb in chain;
    BeforeAcross(chain, alloc + r, fb, rec);
    BeforeAcross(alloc, r, alloc[0], rec);
    BeforeRight(chain, alloc + r, alloc[0], rec);
  }

  /** A rebuild creates view i and the render pass before framebuffer i, and
      records command buffer i against framebuffer i only after creating that
      framebuffer and allocating the buffers. */
  lemma {:induction false} RebuildFramebufferOrder(o: SwapchainObjects, pool: Handle, createInfo: Info)
    requires o.WellSized()
    ensures var t := RebuildCalls(o, pool, createInfo);
            forall i :: 0 <= i < |o.frameBuffers| ==>
              var fb := Call.Create(o.frameBuffers[i], FramebufferInfo(o.renderPass, o.views[i], o.extent));
              var rec := Call.Record(o.commandBuffers[i], o.renderPass, o.frameBuffers[i], o.extent, o.pipeline,
                                     TriangleVertexCount);
              && Before(t, Call.Create(o.views[i], ImageViewInfo(o.images[i], o.format)), fb)
              && Before(t, Call.Create(o.renderPass, RenderPassInfo(o.format)), fb)
              && Before(t, fb, rec)
              && Before(t, Call.AllocateCommandBuffers(pool, o.commandBuffers), rec)
  {
    forall i | 0 <= i < |o.frameBuffers|
      ensures var fb := Call.Create(o.frameBuffers[i], FramebufferInfo(o.renderPass, o.views[i], o.extent));
              var rec := Call.Record(o.commandBuffers[i], o.renderPass, o.frameBuffers[i], o.extent, o.pipeline,
                                     TriangleVertexCount);
              && Before(RebuildCalls(o, pool, createInfo), Call.Create(o.views[i], ImageViewInfo(o.images[i], o.format)), fb)
              && Before(RebuildCalls(o, pool, createInfo), Call.Create(o.renderPass, RenderPassInfo(o.format)), fb)
              && Before(RebuildCalls(o, pool, createInfo), fb, rec)
              && Before(RebuildCalls(o, pool, createInfo), Call.AllocateCommandBuffers(pool, o.commandBuffers), rec)
    {
      FramebufferAfterSources(o, pool, createInfo, i);
      RecordAfterFramebuffer(o, pool, createInfo, i);
    }
  }

  /** `createRenderPass`: one colour attachment in the swapchain format. */
  method CreateRenderPass(gpu: Gpu, format: Format) returns (renderPass: Handle)
    requires gpu.Valid()
    modifies gpu
    ensures gpu.Valid()
    ensures renderPass.Obj? && renderPass !in old(gpu.info)
    ensures gpu.info == old(gpu.info)[renderPass := RenderPassInfo(format)]
    ensures gpu.live == old(gpu.live) + {renderPass}
    ensures gpu.signalled == old(gpu.signalled) && gpu.pending == old(gpu.pending)
    ensures gpu.trace == old(gpu.trace) + [Call.Create(renderPass, RenderPassInfo(format))]
  {
    renderPass := gpu.Create(RenderPassInfo(format));
  }

  /** `createGraphicsPipeline`: the shader modules live exactly as long as it
      takes to create the pipeline; afterwards only the layout and the
      pipeline remain. */
  method CreateGraphicsPipeline(gpu: Gpu, renderPass: Handle, extent: Extent2D)
    returns (vertexShader: Handle, fragmentShader: Handle, pipelineLayout: Handle, pipeline: Handle)
    requires gpu.Valid()
    requires renderPass in gpu.live
    modifies gpu
    ensures gpu.Valid()
    ensures vertexShader !in old(gpu.info) && fragmentShader !in old(gpu.info)
    ensures pipelineLayout.Obj? && pipelineLayout !in old(gpu.info) && pipeline.Obj? && pipeline !in old(gpu.info)
    ensures vertexShader != fragmentShader && pipelineLayout != pipeline
    ensures Extends(old(gpu.info), gpu.info)
    ensures gpu.live == old(gpu.live) + {pipelineLayout, pipeline}
    ensures gpu.signalled == old(gpu.signalled) && gpu.pending == old(gpu.pending)
    ensures gpu.trace == old(gpu.trace) + [
              Call.Create(vertexShader, ShaderModuleInfo(VertexShaderPath)),
              Call.Create(fragmentShader, ShaderModuleInfo(FragmentShaderPath)),
              Call.Create(pipelineLayout, PipelineLayoutInfo),
              Call.Create(pipeline, PipelineInfo(vertexShader, fragmentShader, pipelineLayout, renderPass, extent)),
              Call.Destroy(fragmentShader), Call.Destroy(vertexShader)]
  {
    vertexShader, fragmentShader := CreateShaderModules(gpu);
    pipelineLayout, pipeline := CreatePipeline(gpu, vertexShader, fragmentShader, renderPass, extent);
    DestroyShaderModules(gpu, vertexShader, fragmentShader);
  }

  /** The two `createShaderModule` calls, vertex shader first. */
  method CreateShaderModules(gpu: Gpu) returns (vertexShader: Handle, fragmentShader: Handle)
    requires gpu.Valid()
    modifies gpu
    ensures gpu.Valid()
    ensures vertexShader !in old(gpu.info) && fragmentShader !in old(gpu.info) && vertexShader != fragmentShader
    ensures Extends(old(gpu.info), gpu.info)
    ensures gpu.live == old(gpu.live) + {vertexShader, fragmentShader}
    ensures gpu.signalled == old(gpu.signalled) && gpu.pending == old(gpu.pending)
    ensures gpu.trace == old(gpu.trace) + [Call.Create(vertexShader, ShaderModuleInfo(VertexShaderPath)),
                                           Call.Create(fragmentShader, ShaderModuleInfo(FragmentShaderPath))]
  {
    vertexShader := gpu.Create(ShaderModuleInfo(VertexShaderPath));
    fragmentShader := gpu.Create(ShaderModuleInfo(FragmentShaderPath));
  }

  /** The shader modules are destroyed fragment shader first. */
  method DestroyShaderModules(gpu: Gpu, vertexShader: Handle, fragmentShader: Handle)
    requires gpu.Valid()
    modifies gpu
    ensures gpu.Valid()
    ensures gpu.info == old(gpu.info) && gpu.live == old(gpu.live) - {vertexShader, fragmentShader}
    ensures gpu.signalled == old(gpu.signalled) && gpu.pending == old(gpu.pending)
    ensures gpu.trace == old(gpu.trace) + [Call.Destroy(fragmentShader), Call.Destroy(vertexShader)]
  {
    gpu.Destroy(fragmentShader);
    gpu.Destroy(vertexShader);
  }

  /** The layout and the pipeline over both shader modules. */
  method CreatePipeline(gpu: Gpu, vertexShader: Handle, fragmentShader: Handle, renderPass: Handle, extent: Extent2D)
    returns (pipelineLayout: Handle, pipeline: Handle)
    requires gpu.Valid()
    requires vertexShader in gpu.live && fragmentShader in gpu.live && renderPass in gpu.live
    modifies gpu
    ensures gpu.Valid()
    ensures pipelineLayout.Obj? && pipelineLayout !in old(gpu.info) && pipeline.Obj? && pipeline !in old(gpu.info)
    ensures pipelineLayout != pipeline
    ensures Extends(old(gpu.info), gpu.info)
    ensures gpu.live == old(gpu.live) + {pipelineLayout, pipeline}
    ensures gpu.signalled == old(gpu.signalled) && gpu.pending == old(gpu.pending)
    ensures gpu.trace == old(gpu.trace) + [
              Call.Create(pipelineLayout, PipelineLayoutInfo),
              Call.Create(pipeline, PipelineInfo(vertexShader, fragmentShader, pipelineLayout, renderPass, extent))]
  {
    pipelineLayout := gpu.Create(PipelineLayoutInfo);
    var info := PipelineInfo(vertexShader, fragmentShader, pipelineLayout, renderPass, extent);
    assert Refs(info) == {vertexShader, fragmentShader, pipelineLayout, renderPass};
    assert pipelineLayout in gpu.info;
    pipeline := gpu.Create(info);
  }

  /** The recording loop of `createCommandBuffers`. */
  method RecordAll(gpu: Gpu, buffers: seq<Handle>, renderPass: Handle, frameBuffers: seq<Handle>, extent: Extent2D,
                   pipeline: Handle)
    requires gpu.Valid()
    requires |buffers| == |frameBuffers|
    requires renderPass in gpu.live && pipeline in gpu.live
    requires forall i :: 0 <= i < |buffers| ==> buffers[i] in gpu.live && frameBuffers[i] in gpu.live
    modifies gpu
    ensures gpu.Valid()
    ensures gpu.info == old(gpu.info) && gpu.live == old(gpu.live)
    ensures gpu.signalled == old(gpu.signalled) && gpu.pending == old(gpu.pending)
    ensures gpu.trace == old(gpu.trace) + Recordings(buffers, renderPass, frameBuffers, extent, pipeline)
  {
    var i := 0;
    while i < |buffers|
      invariant 0 <= i <= |buffers|
      invariant gpu.Valid()
      invariant gpu.info == old(gpu.info) && gpu.live == old(gpu.live)
      invariant gpu.signalled == old(gpu.signalled) && gpu.pending == old(gpu.pending)
      invariant gpu.trace == old(gpu.trace) + Recordings(buffers[..i], renderPass, frameBuffers[..i], extent, pipeline)
    {
      ghost var t := gpu.trace;
      gpu.Record(buffers[i], renderPass, frameBuffers[i], extent, pipeline, TriangleVertexCount);
      RecordingsAppend(old(gpu.trace), t, buffers, renderPass, frameBuffers, extent, pipeline, i);
      i := i + 1;
    }
    assert buffers[..i] == buffers && frameBuffers[..i] == frameBuffers;
  }
}
