/** Debug-messenger support used by the renderer: the severity routing of
    the debug callback and the lookup-guarded wrappers around the
    `VK_EXT_debug_utils` entry points. */
module Validation {
  import opened Wrappers
  import opened Vulkan
  import opened Log

  const VK_DEBUG_UTILS_MESSAGE_SEVERITY_VERBOSE_BIT_EXT: bv32 := 0x0000_0001
  const VK_DEBUG_UTILS_MESSAGE_SEVERITY_INFO_BIT_EXT: bv32 := 0x0000_0010
  const VK_DEBUG_UTILS_MESSAGE_SEVERITY_WARNING_BIT_EXT: bv32 := 0x0000_0100
  const VK_DEBUG_UTILS_MESSAGE_SEVERITY_ERROR_BIT_EXT: bv32 := 0x0000_1000

  const VK_DEBUG_UTILS_MESSAGE_TYPE_GENERAL_BIT_EXT: bv32 := 0x0000_0001
  const VK_DEBUG_UTILS_MESSAGE_TYPE_VALIDATION_BIT_EXT: bv32 := 0x0000_0002
  const VK_DEBUG_UTILS_MESSAGE_TYPE_PERFORMANCE_BIT_EXT: bv32 := 0x0000_0004

  /** The layer the debug build enables. */
  const ValidationLayers: seq<string> := ["VK_LAYER_KHRONOS_validation"]

  /** One message written to the engine log. */
  datatype LogEntry = LogEntry(level: Level, text: string)

  /** What the debug callback does with one message: the value it returns and
      the log entry it writes, if any. */
  datatype CallbackEffect = CallbackEffect(result: u32, logged: Option<LogEntry>)

  /** The debug callback: the first threshold the severity reaches picks the
      log level, from error down to verbose; a severity below verbose is not
      logged. The callback never asks the driver to abort the call. */
  function DebugCallback(messageSeverity: bv32, message: string): (r: CallbackEffect)
    ensures r.result == VK_FALSE
    ensures r.logged.Some? ==> r.logged.value.text == "DebugCallback: " + message
    ensures (messageSeverity >= VK_DEBUG_UTILS_MESSAGE_SEVERITY_ERROR_BIT_EXT)
        <==> (r.logged.Some? && r.logged.value.level == Error)
    ensures (VK_DEBUG_UTILS_MESSAGE_SEVERITY_WARNING_BIT_EXT <= messageSeverity < VK_DEBUG_UTILS_MESSAGE_SEVERITY_ERROR_BIT_EXT)
        <==> (r.logged.Some? && r.logged.value.level == Warn)
    ensures (VK_DEBUG_UTILS_MESSAGE_SEVERITY_INFO_BIT_EXT <= messageSeverity < VK_DEBUG_UTILS_MESSAGE_SEVERITY_WARNING_BIT_EXT)
        <==> (r.logged.Some? && r.logged.value.level == Info)
    ensures (VK_DEBUG_UTILS_MESSAGE_SEVERITY_VERBOSE_BIT_EXT <= messageSeverity < VK_DEBUG_UTILS_MESSAGE_SEVERITY_INFO_BIT_EXT)
        <==> (r.logged.Some? && r.logged.value.level == Trace)
    ensures r.logged.None? <==> messageSeverity < VK_DEBUG_UTILS_MESSAGE_SEVERITY_VERBOSE_BIT_EXT
  {
    var text := "DebugCallback: " + message;
    var logged :=
      if messageSeverity >= VK_DEBUG_UTILS_MESSAGE_SEVERITY_ERROR_BIT_EXT then Some(LogEntry(Error, text))
      else if messageSeverity >= VK_DEBUG_UTILS_MESSAGE_SEVERITY_WARNING_BIT_EXT then Some(LogEntry(Warn, text))
      else if messageSeverity >= VK_DEBUG_UTILS_MESSAGE_SEVERITY_INFO_BIT_EXT then Some(LogEntry(Info, text))
      else if messageSeverity >= VK_DEBUG_UTILS_MESSAGE_SEVERITY_VERBOSE_BIT_EXT then Some(LogEntry(Trace, text))
      else None;
    CallbackEffect(VK_FALSE, logged)
  }

  /** The routing is monotone: a more severe message is never logged at a
      lower level. */
  lemma {:induction false} RoutingMonotone(s1: bv32, s2: bv32, m: string)
    requires s1 <= s2
    requires DebugCallback(s1, m).logged.Some?
    ensures DebugCallback(s2, m).logged.Some?
    ensures DebugCallback(s1, m).logged.value.level.Index() <= DebugCallback(s2, m).logged.value.level.Index()
  {
    var a, b := DebugCallback(s1, m), DebugCallback(s2, m);
    assert s1 >= VK_DEBUG_UTILS_MESSAGE_SEVERITY_VERBOSE_BIT_EXT;
    if s2 < VK_DEBUG_UTILS_MESSAGE_SEVERITY_INFO_BIT_EXT {
      assert a.logged.value.level == Trace;
    } else if s2 < VK_DEBUG_UTILS_MESSAGE_SEVERITY_WARNING_BIT_EXT {
      assert b.logged.value.level == Info;
    } else if s2 < VK_DEBUG_UTILS_MESSAGE_SEVERITY_ERROR_BIT_EXT {
      assert b.logged.value.level == Warn;
    } else {
      assert b.logged.value.level == Error;
    }
  }

  /** `CreateDebugUtilsMessengerEXT`: when the entry point cannot be looked
      up, `VK_ERROR_EXTENSION_NOT_PRESENT` is returned without any call and
      the output handle is not written; otherwise the call is forwarded and
      its result returned. */
  method CreateDebugUtilsMessenger(gpu: Gpu, createInfo: Info, lookupFound: bool, driverResult: VkResult,
                                   messenger: Handle)
    returns (result: VkResult, messenger': Handle)
    requires gpu.Valid()
    requires createInfo.MessengerInfo?
    modifies gpu
    ensures gpu.Valid()
    ensures !lookupFound ==> && result == VK_ERROR_EXTENSION_NOT_PRESENT && messenger' == messenger
                             && gpu.trace == old(gpu.trace) && gpu.live == old(gpu.live) && gpu.info == old(gpu.info)
    ensures lookupFound ==> result == driverResult
    ensures lookupFound && driverResult == VK_SUCCESS ==>
              && messenger'.Obj? && messenger' !in old(gpu.info)
              && gpu.info == old(gpu.info)[messenger' := createInfo] && gpu.live == old(gpu.live) + {messenger'}
              && gpu.trace == old(gpu.trace) + [Call.Create(messenger', createInfo)]
    ensures lookupFound && driverResult != VK_SUCCESS ==>
              messenger' == NullHandle && gpu.trace == old(gpu.trace) && gpu.live == old(gpu.live) && gpu.info == old(gpu.info)
    ensures gpu.signalled == old(gpu.signalled) && gpu.pending == old(gpu.pending)
  {
    if !lookupFound {
      return VK_ERROR_EXTENSION_NOT_PRESENT, messenger;
    }
    messenger' := gpu.CreateWithResult(createInfo, driverResult);
    result := driverResult;
  }

  /** `DestroyDebugUtilsMessengerEXT`: a no-op when the entry point cannot be
      looked up. */
  method DestroyDebugUtilsMessenger(gpu: Gpu, messenger: Handle, lookupFound: bool)
    requires gpu.Valid()
    modifies gpu
    ensures gpu.Valid()
    ensures gpu.trace == old(gpu.trace) + (if lookupFound then [Call.Destroy(messenger)] else [])
    ensures gpu.live == (if lookupFound then old(gpu.live) - {messenger} else old(gpu.live))
    ensures gpu.info == old(gpu.info) && gpu.signalled == old(gpu.signalled) && gpu.pending == old(gpu.pending)
  {
    if lookupFound {
      gpu.Destroy(messenger);
    }
  }

  /** The messenger `setupDebugCallback` asks for: errors, warnings and
      information, of every message type. */
  const DebugMessengerInfo: Info := MessengerInfo(
    VK_DEBUG_UTILS_MESSAGE_SEVERITY_ERROR_BIT_EXT | VK_DEBUG_UTILS_MESSAGE_SEVERITY_WARNING_BIT_EXT
      | VK_DEBUG_UTILS_MESSAGE_SEVERITY_INFO_BIT_EXT,
    VK_DEBUG_UTILS_MESSAGE_TYPE_GENERAL_BIT_EXT | VK_DEBUG_UTILS_MESSAGE_TYPE_PERFORMANCE_BIT_EXT
      | VK_DEBUG_UTILS_MESSAGE_TYPE_VALIDATION_BIT_EXT)

  /** `setupDebugCallback`: the creation result is ignored, so a failed
      lookup or a failed creation goes unnoticed. */
  method SetupDebugCallback(gpu: Gpu, lookupFound: bool, driverResult: VkResult, messenger: Handle)
    returns (messenger': Handle)
    requires gpu.Valid()
    modifies gpu
    ensures gpu.Valid()
    ensures lookupFound && driverResult == VK_SUCCESS ==>
              && messenger'.Obj? && messenger' !in old(gpu.info)
              && gpu.info == old(gpu.info)[messenger' := DebugMessengerInfo] && gpu.live == old(gpu.live) + {messenger'}
              && gpu.trace == old(gpu.trace) + [Call.Create(messenger', DebugMessengerInfo)]
    ensures !(lookupFound && driverResult == VK_SUCCESS) ==>
              && messenger' == (if lookupFound then NullHandle else messenger)
              && gpu.trace == old(gpu.trace) && gpu.live == old(gpu.live) && gpu.info == old(gpu.info)
    ensures gpu.signalled == old(gpu.signalled) && gpu.pending == old(gpu.pending)
  {
    var _, m := CreateDebugUtilsMessenger(gpu, DebugMessengerInfo, lookupFound, driverResult, messenger);
    messenger' := m;
  }
}
