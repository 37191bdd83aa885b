/** The stand-alone validation helpers: required-name verification, and the
    debug-messenger set-up that loads both entry points and exits the process
    when anything fails. The debug-message logger of this variant routes
    severities exactly as `Validation.DebugCallback` does. */
module VulkanValidation {
  import opened Wrappers
  import opened Vulkan
  import opened Validation

  /** The position of the first required name absent from `available`. */
  function FirstMissing(required: seq<string>, available: seq<string>): (r: Option<nat>)
    ensures r.None? <==> forall i :: 0 <= i < |required| ==> required[i] in available
    ensures r.Some? ==> && r.value < |required| && required[r.value] !in available
                        && forall i :: 0 <= i < r.value ==> required[i] in available
  {
    if required == [] then None
    else if required[0] !in available then Some(0)
    else
      var rest := FirstMissing(required[1..], available);
      assert forall j :: 1 <= j < |required| ==> required[j] == required[1..][j - 1];
      if rest.None? then None else Some(rest.value + 1)
  }

  /** The loop shared by the layer and the extension checks: the names are
      taken in order and the first one missing aborts with a message naming
      it and the kind of name (`Layer` or `Extension`). */
  function VerifyNames(kind: string, required: seq<string>, available: seq<string>): (r: Outcome)
    ensures r.Ok? <==> forall i :: 0 <= i < |required| ==> required[i] in available
    ensures !r.Exit?
    ensures r.Fatal? ==>
              exists i :: && 0 <= i < |required| && required[i] !in available
                          && (forall j :: 0 <= j < i ==> required[j] in available)
                          && r.message == "Vulkan " + kind + " \"" + required[i] + "\" not found!"
  {
    var missing := FirstMissing(required, available);
    if missing.None? then Ok else Fatal("Vulkan " + kind + " \"" + required[missing.value] + "\" not found!")
  }

  /** `VerifyLayerSupport`: normal return iff every required layer is
      available; otherwise the first missing layer is named. */
  function VerifyLayerSupport(required: seq<string>, available: seq<string>): (r: Outcome)
    ensures r.Ok? <==> forall i :: 0 <= i < |required| ==> required[i] in available
    ensures !r.Exit?
    ensures r.Fatal? ==>
              exists i :: && 0 <= i < |required| && required[i] !in available
                          && (forall j :: 0 <= j < i ==> required[j] in available)
                          && r.message == "Vulkan Layer \"" + required[i] + "\" not found!"
  {
    VerifyNames("Layer", required, available)
  }

  /** The messenger of this variant: errors and warnings only, of every
      message type. */
  const ErrorsAndWarningsInfo: Info := MessengerInfo(
    VK_DEBUG_UTILS_MESSAGE_SEVERITY_ERROR_BIT_EXT | VK_DEBUG_UTILS_MESSAGE_SEVERITY_WARNING_BIT_EXT,
    VK_DEBUG_UTILS_MESSAGE_TYPE_GENERAL_BIT_EXT | VK_DEBUG_UTILS_MESSAGE_TYPE_VALIDATION_BIT_EXT
      | VK_DEBUG_UTILS_MESSAGE_TYPE_PERFORMANCE_BIT_EXT)

  /** The globals `pfnVkCreateDebugUtilsMessengerEXT`,
      `pfnVkDestroyDebugUtilsMessengerEXT` (whether each lookup found the
      entry point) and `debugUtilsMessenger`. */
  class DebugMessenger {
    var createLoaded: bool
    var destroyLoaded: bool
    var messenger: Handle

    constructor ()
      ensures !createLoaded && !destroyLoaded && messenger == NullHandle
    {
      createLoaded, destroyLoaded, messenger := false, false, NullHandle;
    }

    /** `setupDebugCallback`: `createFound` and `destroyFound` are the answers
        of the two entry-point lookups and `driverResult` the result of the
        creation. The process exits with code 1 as soon as one lookup fails
        (the second lookup is not made when the first fails) or when the
        creation fails. */
    method Setup(gpu: Gpu, createFound: bool, destroyFound: bool, driverResult: VkResult) returns (outcome: Outcome)
      requires gpu.Valid()
      modifies this, gpu
      ensures gpu.Valid()
      ensures outcome == Ok || outcome == Exit(1)
      ensures outcome.Ok? <==> createFound && destroyFound && driverResult == VK_SUCCESS
      ensures createLoaded == createFound
      ensures destroyLoaded == (if createFound then destroyFound else old(destroyLoaded))
      ensures !(createFound && destroyFound) ==>
                && messenger == old(messenger)
                && gpu.trace == old(gpu.trace) && gpu.live == old(gpu.live) && gpu.info == old(gpu.info)
      ensures createFound && destroyFound && driverResult != VK_SUCCESS ==>
                && messenger == NullHandle
                && gpu.trace == old(gpu.trace) && gpu.live == old(gpu.live) && gpu.info == old(gpu.info)
      ensures outcome.Ok? ==>
                && messenger.Obj? && messenger !in old(gpu.info)
                && gpu.info == old(gpu.info)[messenger := ErrorsAndWarningsInfo]
                && gpu.live == old(gpu.live) + {messenger}
                && gpu.trace == old(gpu.trace) + [Call.Create(messenger, ErrorsAndWarningsInfo)]
      ensures gpu.signalled == old(gpu.signalled) && gpu.pending == old(gpu.pending)
    {
      createLoaded := createFound;
      if !createLoaded {
        return Exit(1);
      }
      destroyLoaded := destroyFound;
      if !destroyLoaded {
        return Exit(1);
      }
      messenger := gpu.CreateWithResult(ErrorsAndWarningsInfo, driverResult);
      if driverResult != VK_SUCCESS {
        return Exit(1);
      }
      outcome := Ok;
    }

    /** `cleanupDebugCallback`: the destroy entry point is called without a
        check, so it must have been loaded. */
    method Cleanup(gpu: Gpu)
      requires gpu.Valid()
      requires destroyLoaded
      modifies gpu
      ensures gpu.Valid()
      ensures gpu.trace == old(gpu.trace) + [Call.Destroy(messenger)]
      ensures gpu.live == old(gpu.live) - {messenger}
      ensures gpu.info == old(gpu.info) && gpu.signalled == old(gpu.signalled) && gpu.pending == old(gpu.pending)
    {
      gpu.Destroy(messenger);
    }
  }
}
