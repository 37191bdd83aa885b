# Rapier renderer core in Dafny

This project models the selection logic and the frame state machine of the
Rapier engine's Vulkan renderer, together with the small utilities around it:

- the UUID text form;
- the Win32 virtual-key translation and the key-name table;
- the logger's prefix layout, and how fmt reads the finished line;
- validation-layer checks and debug-message routing.

The Vulkan driver itself is the `Vulkan` module.

- A `Gpu` object stands for the driver. Its fields are the information each
  handle was created with (`info`), the live handles (`live`), the fences that
  are signalled or pending, and the ordered `trace` of calls made.
- Handles are abstract values.
- Every result code the driver returns, every enumeration (devices, queue
  families, surface formats, present modes, capabilities), the window size
  and whether the window is minimized are inputs to the operations.
- Creation calls other than the debug messenger's always succeed (see
  "Left out").

The modules follow the renderer's own layering:

| Dafny module | source file | what it covers |
|---|---|---|
| `Swapchain` | `src/graphics/swapchain.cpp` | surface format, present mode, extent, image count and sharing; image views and framebuffers; cleanup |
| `VulkanQueue` | `src/graphics/vulkan_queue.cpp` | queue-family indices |
| `VulkanDevice` | `src/graphics/vulkan_device.cpp` | extension check, suitability, first suitable device, logical device, command pool |
| `FrameSync` | `src/graphics/framesync.cpp` | the two frame slots, `currentFrame`, the per-image fence table |
| `Gfx`, `GfxRenderer` | `src/graphics/gfx.cpp` | init, draw, the recreate protocol, shutdown ordering |
| `Vectors` | none | `std::vector::resize` |
| `Validation`, `VulkanValidation` | `src/graphics/validation.hpp`, `src/graphics/vulkan_validation.hpp` | layer check, messenger, severity routing |
| `Fmt` | none | how fmt reads a format string: literal text, doubled braces, replacement fields and errors |
| `Log`, `LogAnsi` | `src/log/log.cpp`, `src/log.cpp` | the logger; the coloured variant |
| `Uuid` | `src/util/uuid.cpp` | UUID text form and generation |
| `Keyboard`, `Win32Keyboard` | `src/input/keyboard.hpp`, `src/platform/win32_keyboard.cpp` | key names; virtual-key translation |

`Keyboard::Key` is an `enum class` over `uint16_t`, so `Key` is a 16-bit
number. Each enumerator is a named constant holding its declaration number,
and `ENUM_SIZE` is the first number past the keys.

`gfx.cpp` repeats the queue-family scan, the device choice and the swapchain
choices that the `vulkan_*` and `swapchain` files also contain. The copies
make the same choices, so each choice is modelled once and `GfxRenderer` calls
that model. They differ in one message: when no device is suitable,
`gfx.cpp:223` reports "Unable to find suitable GPU!" and
`vulkan_device.cpp:66` reports "Failed to find suitable physical device!".
`Gfx` and `VulkanDevice` each keep their own text.

The frame protocol is stated over the driver trace. For every input, `Draw`
gives the exact sequence of calls it makes and the handles it leaves live. It
also keeps `Ready(gpu)`, which says:

- every persistent object (instance, surface, device, pool, the six sync
  objects) is live;
- every swapchain object is live;
- each frame slot's fence is either signalled or has a submission pending;
- every non-null entry of `imagesInFlight` is one of the two frame fences.

`Ready(gpu)` is what makes the fence wait at the top of the next `draw` free of
deadlock: the submission there always carries the fence that was just reset.

Two behaviours of the code are worth stating plainly:

- `draw` recreates the swapchain only when the acquire reports out-of-date
  (`src/graphics/gfx.cpp:825-832`). A suboptimal acquire goes on to submit and
  present, as `GfxRenderer.AcquireProceeds` states.
- `findQueueFamilies` overwrites the index on every match, so the last matching
  family wins (`VulkanQueue.LastMatchWins`).

## Model

| member | source | states |
|---|---|---|
| VulkanDevice.IsSupported | src/graphics/vulkan_device.cpp:11-17 | true exactly when some available extension name equals the required one |
| VulkanDevice.ExtensionsSupported | src/graphics/vulkan_device.cpp:5-20 | true exactly when every required name occurs among the available ones |
| VulkanDevice.NothingRequired | src/graphics/vulkan_device.cpp:19 | an empty requirement list is met by any device |
| VulkanDevice.IsSuitable | src/graphics/vulkan_device.cpp:50-61 | suitable exactly when the queue indices are valid, the extensions are supported, and formats and present modes are both non-empty |
| VulkanDevice.FirstSuitable | src/graphics/vulkan_device.cpp:63-68 | `Some(i)` is a suitable device with no suitable device before it; `None` exactly when no device is suitable |
| VulkanDevice.QueueCreateInfos | src/graphics/vulkan_device.cpp:84-95 | one entry when the graphics and present families coincide, otherwise two; each asks for one queue; the families are distinct |
| VulkanDevice.VulkanDevice.constructor | src/graphics/vulkan_device.hpp:10-16 | every handle starts null, with no physical device and no command buffers |
| VulkanDevice.VulkanDevice.PickPhysicalDevice | src/graphics/vulkan_device.cpp:42-69 | zero devices is fatal with the "Unable to find Vulkan-supported GPU!" message; none suitable is fatal with the "Failed to find suitable physical device!" message; otherwise selects the first suitable device; the other fields are untouched |
| VulkanDevice.VulkanDevice.CreateLogicalDevice | src/graphics/vulkan_device.cpp:71-119 | creates one new device with the deduplicated queue list; takes queue 0 of each family; the two queues are equal exactly when the families are |
| VulkanDevice.VulkanDevice.CreateCommandPool | src/graphics/vulkan_device.cpp:121-130 | creates one new pool bound to the graphics family |
| VulkanDevice.VulkanDevice.Create | src/graphics/vulkan_device.cpp:22-31 | succeeds exactly when a suitable device exists, with the two fatal messages otherwise; on success the trace is the device creation, then the pool's |
| VulkanDevice.VulkanDevice.CreateDeviceObjects | src/graphics/vulkan_device.cpp:26-30 | the device, then the pool on its graphics family; both are new and live |
| VulkanDevice.VulkanDevice.Cleanup | src/graphics/vulkan_device.cpp:33-36 | destroys the pool, then the device; both stop being live |
| VulkanQueue.QueueFamilies | src/graphics/vulkan_queue.cpp:4-24 | each index is the last family with the graphics bit (or present support), or none when there is no such family; the result is valid exactly when both exist |
| VulkanQueue.FindQueueFamilies | src/graphics/vulkan_queue.cpp:12-21 | the scan loop computes `QueueFamilies`: the last graphics family and the last present family |
| VulkanQueue.LastMatchWins | src/graphics/vulkan_queue.cpp:13-18 | with two graphics families, the later one is chosen |
| Vectors.Resize | src/graphics/framesync.cpp:6 | the new length is `n`, the old prefix is kept, and new slots hold the fill value |
| Swapchain.FindPreferredFormat | src/graphics/swapchain.cpp:155-164 | the preferred sRGB format when present, otherwise the fallback |
| Swapchain.ChooseSurfaceFormat | src/graphics/swapchain.cpp:155-164 | a listed format; the preferred one when listed, otherwise the first |
| Swapchain.ChoosePresentMode | src/graphics/swapchain.cpp:166-173 | mailbox exactly when mailbox is offered, otherwise FIFO (even when it is not listed) |
| Swapchain.Clamp | src/graphics/swapchain.cpp:185-186 | the value `std::max(lo, std::min(hi, x))`: within bounds when the bounds are ordered, unchanged when in range, `lo` when the bounds cross |
| Swapchain.ClampIdempotent | src/graphics/swapchain.cpp:185-186 | clamping twice is clamping once |
| Swapchain.ChooseSwapExtent | src/graphics/swapchain.cpp:175-190 | the surface's current extent unless its width is the `UINT32_MAX` sentinel; otherwise the window size clamped to the allowed range in each dimension |
| Swapchain.ChooseSwapExtentStable | src/graphics/swapchain.cpp:175-190 | choosing again with the chosen extent as the window size gives the same extent |
| Swapchain.HeightSentinelNotTested | src/graphics/swapchain.cpp:176-177 | only the width is tested for the sentinel, so a current extent of 800 by `UINT32_MAX` is returned unchanged |
| Swapchain.ImageCount | src/graphics/swapchain.cpp:21-24 | one more than the minimum in 32-bit arithmetic, capped at a non-zero maximum |
| Swapchain.ImageCountWraps | src/graphics/swapchain.cpp:21 | a minimum of `UINT32_MAX` wraps the request to 0 |
| Swapchain.SharingConfig | src/graphics/swapchain.cpp:38-49 | concurrent, naming both families, exactly when they differ; otherwise exclusive with no family list |
| Swapchain.SwapchainCreateInfo | src/graphics/swapchain.cpp:10-59 | the creation request carries the chosen format, present mode, extent and image count, the sharing configuration, and the surface's current transform |
| Swapchain.ViewInfos | src/graphics/swapchain.cpp:126-153 | view `i` is for image `i` with the swapchain format |
| Swapchain.FramebufferInfos | src/graphics/swapchain.cpp:79-101 | framebuffer `i` attaches view `i` to the render pass with the swapchain extent |
| Swapchain.Swapchain.constructor | src/graphics/swapchain.hpp:14-21 | a null handle, an undefined format, a zero extent and no images, views or framebuffers |
| Swapchain.Swapchain.Create | src/graphics/swapchain.cpp:10-70 | builds the swapchain from the chosen request, then one view per image; records the chosen format, extent and image count |
| Swapchain.Swapchain.CreateFrom | src/graphics/swapchain.cpp:57-67 | creates the swapchain and its images from a request; at least the requested number of images |
| Swapchain.Swapchain.Cleanup | src/graphics/swapchain.cpp:72-77 | destroys every view in order, then the swapchain |
| Swapchain.Swapchain.CreateFrameBuffers | src/graphics/swapchain.cpp:79-101 | one new framebuffer per view, created in view order |
| Swapchain.Swapchain.CreateImageViews | src/graphics/swapchain.cpp:126-153 | one new view per image, created in image order |
| Swapchain.CreateObjects | src/graphics/swapchain.cpp:57-63 | the swapchain, then the queried images; the image count fits in 32 bits |
| Swapchain.CreateViews | src/graphics/swapchain.cpp:126-153 | the view loop: new views, one per image, with the trace of their creations |
| FrameSync.NextFrame | src/graphics/framesync.cpp:59-61 | `(frame + 1) % MAX_FRAMES_IN_FLIGHT` stated as below 2, either the next slot or a wrap to 0 |
| FrameSync.NextFrameTwice | src/graphics/framesync.cpp:59-61 | with two slots, two advances return to the start and one advance always changes the slot |
| FrameSync.SlotCreations | src/graphics/framesync.cpp:14-20 | three creations per slot |
| FrameSync.SlotCreationsAt | src/graphics/framesync.cpp:15-19 | slot `k`'s calls are at positions `3k` to `3k+2`: its image-available semaphore, its render-finished semaphore, then its fence created signalled |
| FrameSync.SlotDestroys | src/graphics/framesync.cpp:23-29 | three destructions per slot |
| FrameSync.SlotDestroysAt | src/graphics/framesync.cpp:24-28 | slot `k`'s calls are at positions `3k` to `3k+2`: its render-finished semaphore, its image-available semaphore, then its fence |
| FrameSync.SlotsReadyKept | src/graphics/framesync.cpp:14-20 | slots already built stay ready while later objects are created |
| FrameSync.CreateSlot | src/graphics/framesync.cpp:15-19 | two new semaphores and a new fence that is created signalled |
| FrameSync.CreateSlots | src/graphics/framesync.cpp:14-20 | the loop fills both slots in order; all fences are distinct and signalled |
| FrameSync.FrameSynchronizer.constructor | src/graphics/framesync.hpp:7-12 | an empty image table and frame 0 |
| FrameSync.FrameSynchronizer.Create | src/graphics/framesync.cpp:5-21 | resizes the image table to the swapchain size with null fill; creates both slots with signalled, distinct fences; the frame is unchanged |
| FrameSync.FrameSynchronizer.Cleanup | src/graphics/framesync.cpp:23-29 | destroys each slot's render-finished semaphore, then its image-available semaphore, then its fence; the live set loses exactly the six slot objects, and the creation info and fence states are unchanged |
| FrameSync.FrameSynchronizer.WaitFrameFence | src/graphics/framesync.cpp:43-45 | the current fence ends signalled and its pending submission is complete |
| FrameSync.FrameSynchronizer.ResetFrameFence | src/graphics/framesync.cpp:47-49 | the current fence ends unsignalled; nothing else changes |
| FrameSync.FrameSynchronizer.WaitImageFence | src/graphics/framesync.cpp:52-57 | waits only when the image's entry is non-null; then stamps the entry with the current frame fence; keeps every entry a frame fence |
| FrameSync.FrameSynchronizer.IncrementFrame | src/graphics/framesync.cpp:59-61 | advances to `NextFrame` and leaves the image table alone |
| Gfx.EnabledLayers | src/graphics/gfx.cpp:48-52 | the validation layer in a debug build, none otherwise |
| Gfx.EnabledExtensions | src/graphics/gfx.cpp:54-57 | the two surface extensions first; a third, debug-utils, exactly when validation is on |
| Gfx.StartupChecks | src/graphics/gfx.cpp:769-773 | succeeds exactly when the layers (in a debug build) and the extensions are all available; a missing layer is reported before a missing extension |
| Gfx.Recordings | src/graphics/gfx.cpp:685-712 | buffer `i` records framebuffer `i` with the pipeline and a draw of 3 vertices |
| Gfx.RecordingsAppend | src/graphics/gfx.cpp:685-712 | the recording of one more buffer extends the trace by that buffer's recording |
| Gfx.BeforeIff | src/graphics/gfx.cpp:733-761 | "`a` occurs before `b` in a trace" holds exactly when some index of `a` is below some index of `b` |
| Gfx.TeardownOrder | src/graphics/gfx.cpp:733-748 | teardown destroys each framebuffer before its view and before the render pass; frees the command buffers before the pipeline; destroys the pipeline before its layout and the render pass, and every view before the swapchain |
| Gfx.ChainOrderInRebuild | src/graphics/gfx.cpp:750-761 | an order among the swapchain, pipeline and framebuffer creations is kept in the full rebuild |
| Gfx.RebuildViewOrder | src/graphics/gfx.cpp:754-755 | the swapchain is created before every image view |
| Gfx.RebuildPipelineOrder | src/graphics/gfx.cpp:756-757 | the render pass, the layout and both shader modules exist before the pipeline; the shader modules are destroyed after it |
| Gfx.PipelineOrderInRebuild | src/graphics/gfx.cpp:481-631 | the pipeline's seven calls keep their order in the rebuild |
| Gfx.FramebufferAfterSources | src/graphics/gfx.cpp:634-656 | framebuffer `i` is created after view `i` and after the render pass |
| Gfx.RecordAfterFramebuffer | src/graphics/gfx.cpp:672-712 | buffer `i` is recorded after framebuffer `i` exists and after the buffers are allocated |
| Gfx.RebuildFramebufferOrder | src/graphics/gfx.cpp:750-761 | in every rebuild, each framebuffer follows its view and the render pass, and each recording follows its framebuffer and the allocation |
| Gfx.CreateRenderPass | src/graphics/gfx.cpp:439-479 | one new render pass whose attachment has the swapchain format |
| Gfx.CreateGraphicsPipeline | src/graphics/gfx.cpp:481-631 | two shader modules, a layout, then the pipeline from them; the modules are destroyed fragment first; only layout and pipeline survive |
| Gfx.CreateShaderModules | src/graphics/gfx.cpp:486-487 | the vertex module, then the fragment module, each read from its fixed path |
| Gfx.DestroyShaderModules | src/graphics/gfx.cpp:629-630 | the fragment module is destroyed, then the vertex module |
| Gfx.CreatePipeline | src/graphics/gfx.cpp:602-625 | a new layout, then a new pipeline built from the modules, layout, render pass and extent |
| Gfx.RecordAll | src/graphics/gfx.cpp:685-712 | the recording loop appends `Recordings` and creates nothing |
| GfxRenderer.FrameOutcome | src/graphics/gfx.cpp:857-883 | a frame succeeds exactly when the submit succeeds and present reports success, out-of-date or suboptimal; otherwise the submit or present failure message |
| GfxRenderer.SubmitFrame | src/graphics/gfx.cpp:834-859 | waits on the image's previous fence, stamps the image with the frame fence, resets that fence and submits with it; the fence is pending exactly when the submit succeeded |
| GfxRenderer.DestroyPipelineObjects | src/graphics/gfx.cpp:739-745 | frees the command buffers, then destroys the pipeline, its layout and the render pass |
| GfxRenderer.CreatePipelineObjects | src/graphics/gfx.cpp:756-757 | the render pass, then the pipeline calls; three new live objects |
| GfxRenderer.ChainBuiltFrom | src/graphics/gfx.cpp:754-758 | swapchain, pipeline and framebuffer stages compose into one chain with all-new objects |
| GfxRenderer.ChainTrace | src/graphics/gfx.cpp:754-758 | the three stage traces concatenate to the chain's trace |
| GfxRenderer.AllocateAndRecord | src/graphics/gfx.cpp:672-713 | one new command buffer per framebuffer, allocated together, then recorded in order |
| GfxRenderer.RebuildFrom | src/graphics/gfx.cpp:754-759 | the chain followed by command buffers is the rebuild; exactly the new objects become live |
| GfxRenderer.InitChainFrom | src/graphics/gfx.cpp:784-789 | at init the chain, the pool and the command buffers compose into the init trace |
| GfxRenderer.InitReady | src/graphics/gfx.cpp:781-791 | after init every persistent object and sync object is live and none of them is a swapchain object |
| GfxRenderer.BuildChain | src/graphics/gfx.cpp:754-758 | swapchain, views, render pass, pipeline and framebuffers, in that order, from the chosen format and extent |
| GfxRenderer.Renderer.constructor | src/graphics/gfx.cpp:68-83 | the file's globals start empty at frame 0 |
| GfxRenderer.Renderer.CleanupSwapchain | src/graphics/gfx.cpp:733-748 | the teardown trace; every swapchain object stops being live and nothing else changes |
| GfxRenderer.Renderer.CreateCommandBuffers | src/graphics/gfx.cpp:672-713 | sized to the framebuffer list; new buffers allocated and recorded |
| GfxRenderer.Renderer.CreateSwapchainChain | src/graphics/gfx.cpp:754-758 | the rebuilt chain with the chosen format, extent and image count |
| GfxRenderer.Renderer.SetPipeline | src/graphics/gfx.cpp:756-757 | stores the new render pass, pipeline objects and shaders |
| GfxRenderer.Renderer.RecreateSwapchain | src/graphics/gfx.cpp:750-761 | waits for idle, tears down, then rebuilds; only swapchain objects are replaced, by all-new ones; persistent objects, sync state and the command pool are untouched |
| GfxRenderer.Renderer.RecreateOutgrowsImageTable | src/graphics/gfx.cpp:750-761 | when the new swapchain needs more images than `imagesInFlight` holds, recreation leaves the table as it was, shorter than the image list |
| GfxRenderer.Renderer.RecreateSwapchainResized | src/graphics/gfx.cpp:750-761 | the recreation followed by the re-sizing `init` does: the renderer stays `Ready`, the table has one entry per new image and keeps the fences recorded for the images that remain |
| FrameSync.FrameSynchronizer.ResizeImages | src/graphics/gfx.cpp:716 | the table takes the new size, keeps the entries that remain, fills the new ones with null, and still records only frame fences |
| GfxRenderer.Renderer.Regenerate | src/graphics/gfx.cpp:752-759 | teardown followed by rebuild, replacing exactly the swapchain objects |
| GfxRenderer.Renderer.Rebuild | src/graphics/gfx.cpp:754-759 | the rebuild trace; exactly the new swapchain objects become live |
| GfxRenderer.Renderer.InitInstance | src/graphics/gfx.cpp:763-779 | the startup checks decide the outcome; on success the instance is created with the enabled layers and extensions, then the debug messenger setup; on failure nothing is created |
| GfxRenderer.Renderer.InitDevice | src/graphics/gfx.cpp:200-285 | the first suitable device and its logical device; the two fatal messages when there is none |
| GfxRenderer.Renderer.CreateLogicalDevice | src/graphics/gfx.cpp:228-285 | one new device with the deduplicated queue list; queue 0 of each family |
| GfxRenderer.Renderer.CreateSurface | src/graphics/gfx.cpp:287-296 | one new surface; nothing else changes |
| GfxRenderer.Renderer.PickSuitableDevice | src/graphics/gfx.cpp:200-226 | chooses the first suitable device; the zero-devices and none-suitable messages otherwise |
| GfxRenderer.Renderer.InitCommands | src/graphics/gfx.cpp:659-713 | the pool on the graphics family, then the recorded command buffers |
| GfxRenderer.Renderer.InitChain | src/graphics/gfx.cpp:784-789 | chain, pool and command buffers in the init order; all new; the pool is not a swapchain object |
| GfxRenderer.Renderer.InitSwapchain | src/graphics/gfx.cpp:784-790 | the chain, then the sync objects; the image table has one null entry per swapchain image, and the renderer is `Ready` |
| GfxRenderer.Renderer.InitFrames | src/graphics/gfx.cpp:715-731 | the sync objects in slot order, and a null image table with one entry per swapchain image; ends `Ready` |
| GfxRenderer.Renderer.Init | src/graphics/gfx.cpp:763-794 | succeeds exactly when the startup checks pass and a suitable device exists, and then ends `Ready` with the full init trace; otherwise the check's or the device message |
| GfxRenderer.Renderer.Shutdown | src/graphics/gfx.cpp:796-816 | wait for idle, swapchain teardown, sync objects, pool, device, surface, messenger, instance, in that order; nothing is left pending |
| GfxRenderer.Renderer.ReleaseDevice | src/graphics/gfx.cpp:808-815 | pool, device, surface, the messenger when its destroy function was found, and then the instance |
| GfxRenderer.Renderer.BeginFrame | src/graphics/gfx.cpp:820-823 | waits on the current frame fence (which ends signalled), then acquires with the current image-available semaphore |
| GfxRenderer.Renderer.PresentFrame | src/graphics/gfx.cpp:862-885 | presents with the render-finished semaphore; out-of-date or suboptimal recreates; any other failure is fatal and does not advance; success and recreation advance the frame |
| GfxRenderer.Renderer.AdvanceFrame | src/graphics/gfx.cpp:885 | moves to `NextFrame`, keeping the image table and `Ready` |
| GfxRenderer.Renderer.DrawAcquired | src/graphics/gfx.cpp:834-885 | the submit calls, then the present and any recreation; the outcome is `FrameOutcome`; the frame advances exactly on success |
| GfxRenderer.Renderer.AfterAcquire | src/graphics/gfx.cpp:825-885 | out-of-date acquire recreates without submitting, leaving the fence signalled and the frame unchanged; any other non-success, non-suboptimal acquire is fatal; otherwise as `DrawAcquired` |
| GfxRenderer.Renderer.DrawFrame | src/graphics/gfx.cpp:820-885 | the fence wait and acquire, followed by `AfterAcquire` |
| GfxRenderer.Renderer.Draw | src/graphics/gfx.cpp:818-886 | minimized changes nothing; otherwise `DrawFrame`; every outcome other than a fatal one leaves the renderer `Ready`, and the persistent objects never change |
| Validation.DebugCallback | src/graphics/validation.hpp:12-31 | always returns `VK_FALSE`; error, warning, info and verbose severities log at error, warn, info and trace; below verbose nothing is logged; the text is "DebugCallback: " followed by the message |
| Validation.RoutingMonotone | src/graphics/validation.hpp:17-28 | a higher severity is never logged at a lower level |
| Validation.CreateDebugUtilsMessenger | src/graphics/validation.hpp:33-41 | a missing entry point returns `VK_ERROR_EXTENSION_NOT_PRESENT` and creates nothing; otherwise the driver's result, with a new messenger on success |
| Validation.DestroyDebugUtilsMessenger | src/graphics/validation.hpp:43-48 | destroys the messenger only when the entry point is found |
| Validation.SetupDebugCallback | src/graphics/validation.hpp:51-66 | asks for error, warning and info severities of all three message types; the creation result is ignored, so a failed lookup or creation leaves no messenger and no error |
| VulkanValidation.FirstMissing | src/graphics/vulkan_validation.hpp:21-25 | the first required name not available, or none exactly when all are available |
| VulkanValidation.VerifyNames | src/graphics/vulkan_validation.hpp:14-26 | succeeds exactly when every required name is available; otherwise names the first missing one |
| VulkanValidation.VerifyLayerSupport | src/graphics/vulkan_validation.hpp:14-26 | succeeds exactly when every layer is available; otherwise fatal, naming the first missing layer in `Vulkan Layer "X" not found!` |
| VulkanValidation.DebugMessenger.constructor | src/graphics/vulkan_validation.hpp:28-30 | nothing loaded and a null messenger |
| VulkanValidation.DebugMessenger.Setup | src/graphics/vulkan_validation.hpp:66-99 | exit code 1 when either entry point is missing or creation fails; on success a new messenger for errors and warnings of every type |
| VulkanValidation.DebugMessenger.Cleanup | src/graphics/vulkan_validation.hpp:101-103 | destroys the messenger |
| Log.Level.Index | src/log/log.cpp:13-18 | each level has a position in the four-entry prefix table |
| Log.SourcePrefixLength | src/log/log.cpp:50-53 | the wider of "Rapier" and the client name, plus 2 |
| Log.LevelPrefix | src/log/log.cpp:13-18 | a table entry of six characters ending in ':' |
| Log.PadRight | src/log/log.cpp:29-31 | the string followed by spaces, up to the width; a longer string is kept whole |
| Log.Logger.constructor | src/log/log.cpp:8-11 | the client prefix is "Client" and the width is 8 |
| Log.Utf8Length | src/log/log.cpp:50-58 | the byte length `std::string::length` reports: between one and four bytes per character |
| Log.Utf8LengthIsCountIffAscii | src/log/log.cpp:50-58 | the byte length equals the character count exactly when every character is ASCII |
| Log.Logger.SetClientPrefix | src/log/log.cpp:55-58 | stores the prefix; the column width is the larger of 6 and the prefix's UTF-8 byte length, plus 2 |
| Log.Logger.NonAsciiPrefixWidth | src/log/log.cpp:50-58 | the client name "Clïent" has 6 characters but 7 bytes, so the column is 9 wide and "[Rapier]" is padded with one space |
| Log.Logger.SourcePrefix | src/log/log.cpp:29-31 | exactly the column width: the bracketed name, then spaces |
| Log.Logger.FormatLine | src/log/log.cpp:35-39 | source column, a space, level prefix, a space, the message and a newline, each at a fixed offset |
| Log.Logger.EngineMessage | src/log/log.cpp:42-44 | the line starts with "[Rapier]" and ends with the message |
| Log.Logger.ClientMessage | src/log/log.cpp:46-48 | the line starts with the bracketed client prefix and ends with the message |
| Log.HeadShape | src/log/log.cpp:29-39 | the head of a line is `[`, the name, then text starting with `]` that holds no braces |
| Log.LineText | src/log/log.cpp:35 | a line read as `[`, the name, brace-free text, the message and a newline is text exactly when the name and the message read as text, and then starts with the bracketed name and ends with the message and the newline as read |
| Log.NoBracesLine | src/log/log.cpp:35-39 | a line built from brace-free parts holds no braces |
| Log.LineRead | src/log/log.cpp:35-39 | fmt reads the finished line as text exactly when it reads the name and the message as text; a line whose name and message hold no braces reads as itself |
| Log.Logger.PrintedLine | src/log/log.cpp:35-39 | a line is printed exactly when fmt reads the source name and the message as text, and it then starts with the bracketed name and ends with the message and a newline, as read; with no braces in either, the printed line is `FormatLine`'s |
| Log.Logger.BracedMessageNotPrinted | src/log/log.cpp:33-35 | a message whose text is `C:/{x}` is not printed: fmt reads a replacement field with no argument |
| Log.Logger.BracedClientNotPrinted | src/log/log.cpp:29-35 | with the client name `{x}`, no client line is printed, whatever the message |
| LogAnsi.Decimal | src/log.cpp:36-38 | non-empty decimal digits with no leading zero |
| LogAnsi.DecimalRoundTrip | src/log.cpp:36-38 | reading the digits back gives the number |
| LogAnsi.SetColor | src/log.cpp:36-38 | starts with `ESC[38;2;` and ends with `m` |
| LogAnsi.SplitAtFirst | src/log.cpp:37 | the text before the first separator and the text after it; `None` exactly when the separator is absent |
| LogAnsi.SplitAtFirstOf | src/log.cpp:37 | a separator-free field followed by the separator is cut back out |
| LogAnsi.ColorRoundTrip | src/log.cpp:28-38 | whatever follows it, a terminal reads the level's red, green and blue back from the escape |
| Fmt.ReadFormat | src/log.cpp:51 | how fmt reads format text: text without braces reads as itself, and never grows |
| Fmt.EscapeBraces | src/log.cpp:51 | brace-free text is left as it is |
| Fmt.EscapeBracesRoundTrip | src/log.cpp:51 | fmt reads text with doubled braces as the original text |
| Fmt.ReadFormatAppend | src/log.cpp:51 | reading two pieces of text is reading the first, then the second, unless the first stops at a field or an error |
| Fmt.ReadFormatBraceFree | src/log/log.cpp:35 | brace-free text followed by more text reads as that text followed by what the rest reads as |
| Log.BracketedRead | src/log.cpp:48-51 | fmt reads `[`, then the name as format text, then the brace-free rest of the line |
| Log.HeadReads | src/log.cpp:48-51 | the padded column and the level prefix hold no braces apart from the name's own |
| LogAnsi.ReadLine | src/log.cpp:48-53 | a line is printed exactly when fmt reads the name as text; a lone `}` met first is a format error; a printed line starts with the name as read and ends with the message, the newline and the reset |
| LogAnsi.ColoredLine | src/log.cpp:35-54 | the escape reads back as the level's colour; the body is a printed `Line` exactly when the source name reads as text, and that line starts with the bracketed name as fmt read it and ends with the message, the newline and the reset; the body is `FormatError` exactly when fmt meets a lone `}` in the name before any replacement field, and `ArgumentField` otherwise |
| LogAnsi.FramedLine | src/log.cpp:45-53 | the bracketed name follows the opening escape and the line ends with the message, the newline and the reset |
| LogAnsi.ColoredLineLiteral | src/log/log.cpp:29-33 | the escape reads back as the level's colour; the bracketed name as written follows it; the message, the newline and the reset end the line, which is the column width plus 9 characters plus the message between the escapes |
| LogAnsi.ColoredLineAsIntended | src/log.cpp:35-54 | for a source name without braces, the line as written is the intended line |
| LogAnsi.EngineLineRead | src/log.cpp:56-58 | engine lines are always printed |
| LogAnsi.FieldClientPrefix | src/log.cpp:48-51 | the client name `{x}` makes fmt read a replacement field, while the intended line shows `[{x}]` |
| LogAnsi.UnmatchedClientPrefix | src/log.cpp:48-51 | the client name `a}` makes fmt raise `format_error`, while the intended line shows `[a}]` |
| Uuid.EqualityIsIdentity | src/util/uuid.hpp:16-21 | `==` holds exactly for equal bytes; `!=` is its negation |
| Uuid.HexDigit | src/util/uuid.cpp:16 | a lower-case hexadecimal digit |
| Uuid.ByteText | src/util/uuid.cpp:22 | two characters per byte |
| Uuid.Run | src/util/uuid.cpp:18-23 | two characters per byte of a byte range |
| Uuid.ToString | src/util/uuid.cpp:14-25 | the loop's output is the 8-4-4-4-12 text of the bytes |
| Uuid.WrittenIsText | src/util/uuid.cpp:18-23 | after all sixteen bytes the loop's output is the full text |
| Uuid.TextLayout | src/util/uuid.hpp:25 | 36 characters, with dashes exactly at positions 8, 13, 18 and 23 (section 3 of RFC 4122) |
| Uuid.ByteAt | src/util/uuid.cpp:22 | byte `i` appears as its high nibble then its low nibble at its place in the text |
| Uuid.TextInjective | src/util/uuid.cpp:14-25 | different UUIDs have different texts |
| Uuid.NilText | src/util/uuid.cpp:5-8 | the nil UUID prints as zeros in 8-4-4-4-12 groups |
| Uuid.Generate | src/util/uuid.cpp:27-42 | version 4 in the high nibble of byte 6, variant bits 10 in byte 8 (sections 4.1.1, 4.1.3 and 4.4 of RFC 4122); the other bits come from the random input |
| Uuid.GeneratedTextMarks | src/util/uuid.cpp:38-39 | a generated UUID's text has '4' at position 14 and one of 8, 9, a, b at position 19 |
| Keyboard.KeyFactsOfLine0 | src/input/keyboard.hpp:9 | for the keys on this line: the `keyNames` entry at the key's number spells its identifier, and that spelling reads back as the key |
| Keyboard.KeyFactsOfLine1 | src/input/keyboard.hpp:10 | the same facts for this line |
| Keyboard.KeyFactsOfLine2 | src/input/keyboard.hpp:12-13 | the same facts for these lines |
| Keyboard.KeyFactsOfLine3 | src/input/keyboard.hpp:15-17 | the same facts for these lines |
| Keyboard.KeyFactsOfLine4 | src/input/keyboard.hpp:19 | the same facts for this line |
| Keyboard.KeyFactsOfLine5 | src/input/keyboard.hpp:21-22 | the same facts for these lines |
| Keyboard.KeyFactsOfLine6 | src/input/keyboard.hpp:24 | the same facts for this line |
| Keyboard.KeyFactsOfLine7 | src/input/keyboard.hpp:26-28 | the same facts for these lines |
| Keyboard.AllKeyFacts | src/input/keyboard.hpp:7-60 | every key has these facts |
| Keyboard.NameSpellsKey | src/input/keyboard.hpp:33-60 | `GetKeyName` gives the enumerator's own identifier |
| Keyboard.KeyNamesSize | src/input/keyboard.hpp:30-60 | `keyNames` has `ENUM_SIZE` entries |
| Keyboard.NamesDistinct | src/input/keyboard.hpp:33-60 | distinct keys have distinct names |
| Keyboard.KeyNamesDistinct | src/input/keyboard.hpp:38-60 | no name occurs twice in `keyNames` |
| Win32Keyboard.ScanCode | src/platform/win32_keyboard.cpp:89 | the scan code field is a byte |
| Win32Keyboard.RoundTripLetters | src/platform/win32_keyboard.cpp:8-59 | each letter code gives its own key, in alphabet order |
| Win32Keyboard.RoundTripPunctuation | src/platform/win32_keyboard.cpp:61-80 | each punctuation code gives a key from which the code is recovered |
| Win32Keyboard.RoundTripModifiers | src/platform/win32_keyboard.cpp:82-109 | the same for the modifier, Windows, Tab, Backspace, Enter, Caps Lock and Escape codes |
| Win32Keyboard.RoundTripDigitRow | src/platform/win32_keyboard.cpp:111-134 | the same for the digit row, with digits in order |
| Win32Keyboard.RoundTripNumpad | src/platform/win32_keyboard.cpp:136-155 | the same for the keypad digits, in order |
| Win32Keyboard.RoundTripOperators | src/platform/win32_keyboard.cpp:157-166 | the same for the keypad operators and Num Lock |
| Win32Keyboard.RoundTripFunctionKeys | src/platform/win32_keyboard.cpp:168-191 | the same for F1 to F12, in order |
| Win32Keyboard.RoundTripEditing | src/platform/win32_keyboard.cpp:193-212 | the same for Print Screen, Scroll Lock, Pause and the editing keys |
| Win32Keyboard.RoundTripArrows | src/platform/win32_keyboard.cpp:214-221 | the same for the arrow keys |
| Win32Keyboard.TranslationRoundTrip | src/platform/win32_keyboard.cpp:5-226 | every listed code gives a valid key from which the code is recovered, whatever the flags |
| Win32Keyboard.TranslationInjective | src/platform/win32_keyboard.cpp:5-226 | distinct listed codes give distinct keys |
| Win32Keyboard.InvalidIffUnhandled | src/platform/win32_keyboard.cpp:224-225 | `Invalid` exactly for codes the switch does not list |
| Win32Keyboard.FlagsIrrelevant | src/platform/win32_keyboard.cpp:5-226 | only Shift, Ctrl and Alt depend on the flags or the left-shift scan code |
| Win32Keyboard.FlagsFields | src/platform/win32_keyboard.cpp:89-95 | the scan code and extended bit are read from their places in the keystroke flags |
| Win32Keyboard.ModifierSides | src/platform/win32_keyboard.cpp:82-95 | Shift is left exactly when the scan code is the left shift's; Ctrl and Alt are right exactly when extended |
| Win32Keyboard.LettersInOrder | src/platform/win32_keyboard.cpp:8-59 | 'A' to 'Z' give A to Z in order |
| Win32Keyboard.DigitsInOrder | src/platform/win32_keyboard.cpp:111-130 | '0' to '9' give Num0 to Num9 in order |
| Win32Keyboard.NumpadInOrder | src/platform/win32_keyboard.cpp:136-155 | keypad 0 to 9 give Numpad0 to Numpad9 in order |
| Win32Keyboard.FunctionKeysInOrder | src/platform/win32_keyboard.cpp:168-191 | F1 to F12 in order |

## Left out

- Vulkan creation failures other than the debug messenger's: the source throws on each, and the model treats creation as succeeding so that the protocol's order can be stated; the acquire, submit and present results are modelled fully.
- Fence timing: waits are reduced to "signalled or pending", and the `UINT64_MAX` timeouts are not modelled.
- The support-detail queries (`GetSupportDetails`, `getSwapchainSupportDetails`): their answers are inputs, carried in each physical device's `support` field.
- The structure filling in `createRenderPass`, `createGraphicsPipeline` and `createInstance`, shader file loading and `VK_MAKE_VERSION`: only the handles, the render pass format and the enabled layers and extensions are kept.
- `src/gfx/gfx.cpp`, the window and application loops, the demo, file I/O, the input mapper, event tables, version files, `mouse.hpp` and the utility types: they are not part of this model.
- Randomness: `Uuid.Generate` takes its sixteen random bytes as an input.
- `MapVirtualKey`: the left shift's scan code is a parameter of the translation.
- The error log for an unhandled key, console output and `fmt` colour handling: only the text that would be written is modelled, and the Windows and Vulkan constant values are taken from their headers.
- GfxRenderer.Renderer.Draw: `imagesInFlight` is sized only when the sync objects are created and is not re-sized when the swapchain is recreated (see "## Findings"), so the model demands `imageIndex < |imagesInFlight|` when the acquire proceeds; `DrawFrame`, `AfterAcquire` and `DrawAcquired` demand the same. The draw path keeps the recreation as written; `RecreateSwapchainResized` is the corrected recreation.
- VulkanValidation.DebugMessenger.Cleanup: it requires that the destroy entry point was loaded; the source calls `pfnVkDestroyDebugUtilsMessengerEXT` without checking it (`vulkan_validation.hpp:39-43`, `101-103`), and a call through a null pointer is not modelled.
- Log.PadRight: each character counts as one column; fmt counts East Asian wide characters and emoji as two, so such names get less padding than the model gives.
- LogAnsi.ColoredLine: `ArgumentField` stands for every reading that reaches a `{` which is not part of `{{` before any lone `}`. Some of those raise `format_error` whatever the arguments: a name such as `a{` gives the field `{]`, which is not a valid replacement field. For the others, which argument the field takes, and whether that raises `format_error`, depends on the message's arguments. Those are not modelled: `message` is the text the format string and its arguments make.
- GfxRenderer.Renderer.Shutdown: the live set after shutdown is stated as a bound (`<=`) rather than an equality.
- GfxRenderer.Renderer.ReleaseDevice: the live set is stated as a bound (`<=`) rather than an equality.
- FrameSync.FrameSynchronizer.GetNextFrameFence: the three getters are functions of the state with no contract of their own.
- Keyboard.GetKeyName: the name table is stated through `NameSpellsKey` and `KeyNamesDistinct` rather than on the function itself.
- Win32Keyboard.TranslateWin32KeyCode: its meaning is stated by the round-trip lemmas rather than on the function itself.

## Findings

| source | as written | input that shows it | evidently intended | confidence | as-written member | corrected member |
|---|---|---|---|---|---|---|
| src/log.cpp:48-51 | the padded `[name]` column is spliced into the format string passed to `fmt::vprint`, so fmt reads the client name as format text | `setClientPrefix("{x}")`: fmt reads a replacement field where the name should be | the name printed as written, as `src/log/log.cpp:29-33` does by formatting the message on its own | high, not executed | LogAnsi.FieldClientPrefix | LogAnsi.ColoredLineLiteral |
| src/log.cpp:48-51 | the same splice; a lone `}` is an error for fmt | `setClientPrefix("a}")`: fmt raises `format_error`, and neither the line nor the reset escape is printed | the name printed as written | high, not executed | LogAnsi.UnmatchedClientPrefix | LogAnsi.ColoredLineLiteral |
| src/log/log.cpp:35 | the finished line is passed to `fmt::print` as its format string, with no arguments | a message whose formatted text is `C:/{x}`: fmt reads a replacement field with no argument and raises `format_error` | the line printed as it was formatted | high, not executed | Log.Logger.BracedMessageNotPrinted | Log.Logger.FormatLine |
| src/graphics/gfx.cpp:750-761 | `recreateSwapchain` never re-sizes `imagesInFlight`, which `init` sizes once at line 716, and line 834 indexes it by the acquired image index | a recreation whose surface asks for more images than the first swapchain had: the acquire may return an index past the end of the table | the table re-sized to the new image count, as `init` does | medium, not executed | GfxRenderer.Renderer.RecreateOutgrowsImageTable | GfxRenderer.Renderer.RecreateSwapchainResized |
