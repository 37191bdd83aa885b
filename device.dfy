/** Physical-device selection and logical-device creation (`VulkanDevice`). */
module VulkanDevice {
  import opened Wrappers
  import opened Vulkan
  import opened VulkanQueue

  /** `isExtensionSupported`: some available extension has exactly this name. */
  function IsSupported(name: string, available: seq<string>): (r: bool)
    ensures r <==> exists j :: 0 <= j < |available| && available[j] == name
  {
    if available == [] then false
    else available[0] == name || IsSupported(name, available[1..])
  }

  /** `verifyPhysicalDeviceExtensionSupport`: every required name is among the
      available ones. */
  function ExtensionsSupported(available: seq<string>, required: seq<string>): (r: bool)
    ensures r <==> forall i :: 0 <= i < |required| ==> required[i] in available
  {
    if required == [] then true
    else IsSupported(required[0], available) && ExtensionsSupported(available, required[1..])
  }

  /** An empty requirement list is always met. */
  lemma NothingRequired(available: seq<string>)
    ensures ExtensionsSupported(available, [])
  {
  }

  /** The suitability test applied to every enumerated device. The support
      details are looked at only when the extensions pass. */
  function IsSuitable(device: PhysicalDevice, required: seq<string>): (r: bool)
    ensures r <==> && QueueFamilies(device.queueFamilies).IsValid()
                   && (forall i :: 0 <= i < |required| ==> required[i] in device.extensions)
                   && |device.support.formats| > 0 && |device.support.presentModes| > 0
  {
    var indices := QueueFamilies(device.queueFamilies);
    var extensionsSupported := ExtensionsSupported(device.extensions, required);
    var swapchainSupport :=
      if extensionsSupported then |device.support.formats| > 0 && |device.support.presentModes| > 0
      else false;
    indices.IsValid() && extensionsSupported && swapchainSupport
  }

  /** `find_if` over the enumerated devices from position `k` on. */
  function FirstSuitableFrom(devices: seq<PhysicalDevice>, required: seq<string>, k: nat): (r: Option<nat>)
    requires k <= |devices|
    ensures r.Some? ==> && k <= r.value < |devices|
                        && IsSuitable(devices[r.value], required)
                        && forall j :: k <= j < r.value ==> !IsSuitable(devices[j], required)
    ensures r.None? <==> forall j :: k <= j < |devices| ==> !IsSuitable(devices[j], required)
    decreases |devices| - k
  {
    if k == |devices| then None
    else if IsSuitable(devices[k], required) then Some(k)
    else FirstSuitableFrom(devices, required, k + 1)
  }

  /** `find_if` over the enumerated devices: the position of the first
      suitable one. */
  function FirstSuitable(devices: seq<PhysicalDevice>, required: seq<string>): (r: Option<nat>)
    ensures r.Some? ==> && r.value < |devices|
                        && IsSuitable(devices[r.value], required)
                        && forall j :: 0 <= j < r.value ==> !IsSuitable(devices[j], required)
    ensures r.None? <==> forall j :: 0 <= j < |devices| ==> !IsSuitable(devices[j], required)
  {
    FirstSuitableFrom(devices, required, 0)
  }

  /** The `queueCreateInfos` list: one queue of the graphics family and, when
      it is a different family, one queue of the present family. */
  function QueueCreateInfos(indices: QueueFamilyIndices): (r: seq<QueueCreateInfo>)
    requires indices.IsValid()
    ensures var g, p := indices.graphicsFamily.value, indices.presentFamily.value;
            && |r| == (if g == p then 1 else 2)
            && r[0].family == g
            && (g != p ==> r[1].family == p)
            && (forall i :: 0 <= i < |r| ==> r[i].queueCount == 1)
            && (forall i, j :: 0 <= i < j < |r| ==> r[i].family != r[j].family)
  {
    var g, p := indices.graphicsFamily.value, indices.presentFamily.value;
    var infos := [QueueCreateInfo(g, 1)];
    if p != g then infos + [QueueCreateInfo(p, 1)] else infos
  }

  /** The value of `physicalDevice` before one is picked. */
  const NoPhysicalDevice := PhysicalDevice(
    NullHandle, [], [],
    SupportDetails(SurfaceCapabilities(0, 0, Extent2D(0, 0), Extent2D(0, 0), Extent2D(0, 0), 0), [], []))

  const NoGpuMessage := "Unable to find Vulkan-supported GPU!"
  const NoSuitableDeviceMessage := "Failed to find suitable physical device!"

  class VulkanDevice {
    /** The selected device, with what the driver reports about it; the
        source stores only its handle, `physicalDevice.handle`. */
    var physicalDevice: PhysicalDevice
    var handle: Handle
    var graphicsQueue: Handle
    var presentQueue: Handle
    var commandPool: Handle
    var commandBuffers: seq<Handle>

    constructor ()
      ensures physicalDevice == NoPhysicalDevice
      ensures handle == NullHandle && graphicsQueue == NullHandle && presentQueue == NullHandle
      ensures commandPool == NullHandle && commandBuffers == []
    {
      physicalDevice := NoPhysicalDevice;
      handle, graphicsQueue, presentQueue, commandPool := NullHandle, NullHandle, NullHandle, NullHandle;
      commandBuffers := [];
    }

    /** `PickPhysicalDevice`: `devices` is the enumeration result. Fatal when it
        is empty or holds no suitable device; otherwise the first suitable
        device is selected. */
    method PickPhysicalDevice(devices: seq<PhysicalDevice>, required: seq<string>) returns (outcome: Outcome)
      modifies this
      ensures |devices| == 0 ==> outcome == Fatal(NoGpuMessage)
      ensures |devices| > 0 && FirstSuitable(devices, required).None? ==> outcome == Fatal(NoSuitableDeviceMessage)
      ensures outcome.Ok? <==> FirstSuitable(devices, required).Some?
      ensures outcome.Ok? ==> physicalDevice == devices[FirstSuitable(devices, required).value]
      ensures outcome.Ok? ==> IsSuitable(physicalDevice, required)
      ensures !outcome.Ok? ==> physicalDevice == old(physicalDevice)
      ensures handle == old(handle) && graphicsQueue == old(graphicsQueue) && presentQueue == old(presentQueue)
      ensures commandPool == old(commandPool) && commandBuffers == old(commandBuffers)
    {
      if |devices| == 0 {
        return Fatal(NoGpuMessage);
      }
      var first := FirstSuitable(devices, required);
      if first.None? {
        return Fatal(NoSuitableDeviceMessage);
      }
      physicalDevice := devices[first.value];
      outcome := Ok;
    }

    /** `CreateLogicalDevice`: a device with the deduplicated queue list, then
        queue 0 of the graphics and of the present family, which are the same
        queue exactly when the families are equal. */
    method CreateLogicalDevice(gpu: Gpu, indices: QueueFamilyIndices,
                               enabledLayers: seq<string>, enabledExtensions: seq<string>)
      requires gpu.Valid()
      requires indices.IsValid()
      modifies this, gpu
      ensures gpu.Valid()
      ensures handle.Obj? && handle !in old(gpu.info)
      ensures gpu.info == old(gpu.info)[handle := DeviceInfo(physicalDevice.handle, QueueCreateInfos(indices), enabledLayers, enabledExtensions)]
      ensures gpu.live == old(gpu.live) + {handle}
      ensures gpu.signalled == old(gpu.signalled) && gpu.pending == old(gpu.pending)
      ensures gpu.trace == old(gpu.trace) + [Call.Create(handle, gpu.info[handle])]
      ensures graphicsQueue == QueueOf(handle.id, indices.graphicsFamily.value, 0)
      ensures presentQueue == QueueOf(handle.id, indices.presentFamily.value, 0)
      ensures graphicsQueue == presentQueue <==> indices.graphicsFamily == indices.presentFamily
      ensures physicalDevice == old(physicalDevice) && commandPool == old(commandPool)
      ensures commandBuffers == old(commandBuffers)
    {
      var queueCreateInfos := QueueCreateInfos(indices);
      handle := gpu.Create(DeviceInfo(physicalDevice.handle, queueCreateInfos, enabledLayers, enabledExtensions));
      graphicsQueue := QueueOf(handle.id, indices.graphicsFamily.value, 0);
      presentQueue := QueueOf(handle.id, indices.presentFamily.value, 0);
    }

    /** `CreateCommandPool`: a pool for the graphics family. */
    method CreateCommandPool(gpu: Gpu, indices: QueueFamilyIndices)
      requires gpu.Valid()
      requires indices.IsValid()
      modifies this, gpu
      ensures gpu.Valid()
      ensures commandPool.Obj? && commandPool !in old(gpu.info)
      ensures gpu.info == old(gpu.info)[commandPool := CommandPoolInfo(indices.graphicsFamily.value)]
      ensures gpu.live == old(gpu.live) + {commandPool}
      ensures gpu.signalled == old(gpu.signalled) && gpu.pending == old(gpu.pending)
      ensures gpu.trace == old(gpu.trace) + [Call.Create(commandPool, CommandPoolInfo(indices.graphicsFamily.value))]
      ensures physicalDevice == old(physicalDevice) && handle == old(handle)
      ensures graphicsQueue == old(graphicsQueue) && presentQueue == old(presentQueue)
      ensures commandBuffers == old(commandBuffers)
    {
      commandPool := gpu.Create(CommandPoolInfo(indices.graphicsFamily.value));
    }

    /** `Create`: pick a device, scan its queue families, create the logical
        device and then a command pool bound to the graphics family. The
        suitability test guarantees that both families exist, so the family
        lookups cannot fail. */
    method Create(gpu: Gpu, devices: seq<PhysicalDevice>,
                  enabledLayers: seq<string>, enabledExtensions: seq<string>) returns (outcome: Outcome)
      requires gpu.Valid()
      modifies this, gpu
      ensures gpu.Valid()
      ensures outcome.Ok? <==> FirstSuitable(devices, enabledExtensions).Some?
      ensures !outcome.Ok? ==> && outcome == (if |devices| == 0 then Fatal(NoGpuMessage) else Fatal(NoSuitableDeviceMessage))
                               && gpu.trace == old(gpu.trace) && gpu.live == old(gpu.live)
      ensures outcome.Ok? ==>
        var indices := QueueFamilies(physicalDevice.queueFamilies);
        && physicalDevice == devices[FirstSuitable(devices, enabledExtensions).value]
        && indices.IsValid()
        && handle != commandPool
        && gpu.trace == old(gpu.trace) + [
             Call.Create(handle, DeviceInfo(physicalDevice.handle, QueueCreateInfos(indices), enabledLayers, enabledExtensions)),
             Call.Create(commandPool, CommandPoolInfo(indices.graphicsFamily.value))]
        && gpu.live == old(gpu.live) + {handle, commandPool}
        && graphicsQueue == QueueOf(handle.id, indices.graphicsFamily.value, 0)
        && presentQueue == QueueOf(handle.id, indices.presentFamily.value, 0)
    {
      outcome := PickPhysicalDevice(devices, enabledExtensions);
      if !outcome.Ok? {
        return;
      }
      CreateDeviceObjects(gpu, enabledLayers, enabledExtensions);
    }

    /** The part of `Create` after the pick: the queue families of the chosen
        device, the logical device and the command pool. */
    method CreateDeviceObjects(gpu: Gpu, enabledLayers: seq<string>, enabledExtensions: seq<string>)
      requires gpu.Valid()
      requires QueueFamilies(physicalDevice.queueFamilies).IsValid()
      modifies this, gpu
      ensures gpu.Valid()
      ensures physicalDevice == old(physicalDevice)
      ensures var indices := QueueFamilies(physicalDevice.queueFamilies);
        && handle != commandPool
        && gpu.trace == old(gpu.trace) + [
             Call.Create(handle, DeviceInfo(physicalDevice.handle, QueueCreateInfos(indices), enabledLayers, enabledExtensions)),
             Call.Create(commandPool, CommandPoolInfo(indices.graphicsFamily.value))]
        && gpu.live == old(gpu.live) + {handle, commandPool}
        && graphicsQueue == QueueOf(handle.id, indices.graphicsFamily.value, 0)
        && presentQueue == QueueOf(handle.id, indices.presentFamily.value, 0)
    {
      var queueFamilyConfig := FindQueueFamilies(physicalDevice);
      CreateLogicalDevice(gpu, queueFamilyConfig, enabledLayers, enabledExtensions);
      ghost var afterDevice := gpu.trace;
      assert handle in gpu.info;
      CreateCommandPool(gpu, queueFamilyConfig);
      assert handle != commandPool;
      assert gpu.trace == afterDevice + [Call.Create(commandPool, CommandPoolInfo(queueFamilyConfig.graphicsFamily.value))];
    }

    /** `Cleanup`: the command pool is destroyed before the device. */
    method Cleanup(gpu: Gpu)
      requires gpu.Valid()
      modifies gpu
      ensures gpu.Valid()
      ensures gpu.trace == old(gpu.trace) + [Call.Destroy(commandPool), Call.Destroy(handle)]
      ensures gpu.live == old(gpu.live) - {commandPool, handle}
      ensures gpu.info == old(gpu.info) && gpu.signalled == old(gpu.signalled) && gpu.pending == old(gpu.pending)
    {
      gpu.Destroy(commandPool);
      gpu.Destroy(handle);
    }
  }
}
