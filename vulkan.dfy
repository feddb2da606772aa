/** The handful of Vulkan constants, enumerations and create-info records that the
    bootstrap reads or fills. Values follow the Vulkan specification. */
module Vulkan {
  import opened Outcomes

  /** `VkResult`: zero is success, negative values are errors. */
  type VkResult = int
  const Success: VkResult := 0
  const ErrorExtensionNotPresent: VkResult := -7

  /** `VkBool32` and its false value. */
  type Bool32 = bv32
  const VkFalse: Bool32 := 0

  /** Bit masks (`VkFlags`). */
  type Flags = bv32

  /** `VkDebugUtilsMessageSeverityFlagBitsEXT` (VK_EXT_debug_utils). */
  const SeverityVerbose: Flags := 0x1
  const SeverityInfo: Flags := 0x10
  const SeverityWarning: Flags := 0x100
  const SeverityError: Flags := 0x1000

  /** `VkDebugUtilsMessageTypeFlagBitsEXT` (VK_EXT_debug_utils). */
  const TypeGeneral: Flags := 0x1
  const TypeValidation: Flags := 0x2
  const TypePerformance: Flags := 0x4

  /** `VkStructureType` values of the three structures the bootstrap fills. */
  const StructureTypeApplicationInfo: nat := 0
  const StructureTypeInstanceCreateInfo: nat := 1
  const StructureTypeDebugUtilsMessengerCreateInfo: nat := 1000128004

  /** `VK_EXT_DEBUG_UTILS_EXTENSION_NAME`. */
  const DebugUtilsExtensionName: string := "VK_EXT_debug_utils"

  /** Dispatchable and non-dispatchable handles; 0 is `VK_NULL_HANDLE`. */
  type Handle = nat
  const NullHandle: Handle := 0

  /** `VkPhysicalDeviceType`, in the order of its values 0 to 4. */
  datatype PhysicalDeviceType = Other | IntegratedGpu | DiscreteGpu | VirtualGpu | Cpu

  /** A snapshot of one enumerated device: its handle and the properties that
      the `PhysicalDevice` wrapper keeps. */
  datatype PhysicalDevice = PhysicalDevice(handle: Handle, name: string, deviceType: PhysicalDeviceType)

  /** The callback pointer stored in a messenger create-info: null or `debugCallback`. */
  datatype UserCallback = NoCallback | DebugCallbackFn

  /** `VkDebugUtilsMessengerCreateInfoEXT` (pNext and pUserData stay null). */
  datatype MessengerCreateInfo = MessengerCreateInfo(
    sType: nat,
    flags: Flags,
    messageSeverity: Flags,
    messageType: Flags,
    userCallback: UserCallback)

  /** A value-initialised (`= {}`) messenger create-info. */
  const ZeroMessengerCreateInfo := MessengerCreateInfo(0, 0, 0, 0, NoCallback)

  /** `VkApplicationInfo`; an empty name stands for a null string pointer. */
  datatype ApplicationInfo = ApplicationInfo(
    sType: nat,
    applicationName: string,
    applicationVersion: bv32,
    engineName: string,
    engineVersion: bv32,
    apiVersion: bv32)

  const ZeroApplicationInfo := ApplicationInfo(0, "", 0, "", 0, 0)

  /** `VkInstanceCreateInfo`; `next` is the optional chained messenger create-info. */
  datatype InstanceCreateInfo = InstanceCreateInfo(
    sType: nat,
    applicationInfo: Option<ApplicationInfo>,
    enabledLayerNames: seq<string>,
    enabledExtensionNames: seq<string>,
    next: Option<MessengerCreateInfo>)

  const ZeroInstanceCreateInfo := InstanceCreateInfo(0, None, [], [], None)

  /** `VK_MAKE_VERSION(major, minor, patch)`: 10, 10 and 12 bits packed into 32. */
  function MakeVersion(major: bv32, minor: bv32, patch: bv32): bv32 {
    (major << 22) | (minor << 12) | patch
  }

  /** `VK_VERSION_MAJOR`, `VK_VERSION_MINOR`, `VK_VERSION_PATCH`. */
  function VersionMajor(version: bv32): bv32 { version >> 22 }
  function VersionMinor(version: bv32): bv32 { (version >> 12) & 0x3FF }
  function VersionPatch(version: bv32): bv32 { version & 0xFFF }

  /** `VK_API_VERSION_1_0`, that is `VK_MAKE_API_VERSION(0, 1, 0, 0)`. */
  const ApiVersion10: bv32 := 0x400000

  /** Packing a version whose parts fit their fields loses nothing. */
  lemma MakeVersionRoundTrip(major: bv32, minor: bv32, patch: bv32)
    requires major < 0x400 && minor < 0x400 && patch < 0x1000
    ensures VersionMajor(MakeVersion(major, minor, patch)) == major
    ensures VersionMinor(MakeVersion(major, minor, patch)) == minor
    ensures VersionPatch(MakeVersion(major, minor, patch)) == patch
  {
  }
}
