/** The Vulkan loader/driver and the window system, as the bootstrap sees them.
    Their answers are fixed inputs (an `Environment`); the calls that create,
    destroy or enumerate driver objects are recorded, in order, in a call log. */
module Host {
  import opened Outcomes
  import opened Vulkan

  /** What the driver and GLFW answer. */
  datatype Environment = Environment(
    /** names reported by `vkEnumerateInstanceLayerProperties` */
    availableLayers: seq<string>,
    /** what `glfwGetRequiredInstanceExtensions` returns */
    windowExtensions: seq<string>,
    /** what `vkCreateInstance` returns */
    instanceResult: VkResult,
    /** whether `vkGetInstanceProcAddr` finds `vkCreateDebugUtilsMessengerEXT` */
    createMessengerResolves: bool,
    /** what the resolved `vkCreateDebugUtilsMessengerEXT` returns */
    messengerResult: VkResult,
    /** whether `vkGetInstanceProcAddr` finds `vkDestroyDebugUtilsMessengerEXT` */
    destroyMessengerResolves: bool,
    /** the devices `vkEnumeratePhysicalDevices` reports, in enumeration order */
    devices: seq<PhysicalDevice>)

  /** One recorded driver call with its arguments and results. */
  datatype Call =
    | CreateInstance(request: InstanceCreateInfo, result: VkResult, instance: Handle)
    | CreateDebugUtilsMessenger(instance: Handle, messengerRequest: MessengerCreateInfo, result: VkResult, messenger: Handle)
    | DestroyDebugUtilsMessenger(instance: Handle, messenger: Handle)
    | DestroyInstance(instance: Handle)
    | EnumeratePhysicalDevices(instance: Handle, fetchHandles: bool)

  /** The handle a create call hands out when `created` objects exist already. */
  function NewHandle(created: nat, result: VkResult): (h: Handle)
    ensures h == NullHandle <==> result != Success
  {
    if result == Success then created + 1 else NullHandle
  }

  /** How many objects exist after a create call that returned `result`. */
  function CreatedAfter(created: nat, result: VkResult): nat {
    if result == Success then created + 1 else created
  }

  class Platform {
    const env: Environment
    /** every recorded call, oldest first */
    var log: seq<Call>
    /** number of objects created so far; handles are 1, 2, ... */
    var created: nat

    constructor (env: Environment)
      ensures this.env == env && log == [] && created == 0
    {
      this.env := env;
      log := [];
      created := 0;
    }

    /** `vkCreateInstance`. */
    method CreateInstance(request: InstanceCreateInfo) returns (result: VkResult, instance: Handle)
      modifies this
      ensures result == env.instanceResult
      ensures instance == NewHandle(old(created), result) && created == CreatedAfter(old(created), result)
      ensures log == old(log) + [Call.CreateInstance(request, result, instance)]
    {
      result := env.instanceResult;
      instance := NewHandle(created, result);
      created := CreatedAfter(created, result);
      log := log + [Call.CreateInstance(request, result, instance)];
    }

    /** The resolved `vkCreateDebugUtilsMessengerEXT`; only callable once resolved. */
    method CreateDebugUtilsMessenger(instance: Handle, request: MessengerCreateInfo)
      returns (result: VkResult, messenger: Handle)
      requires env.createMessengerResolves
      modifies this
      ensures result == env.messengerResult
      ensures messenger == NewHandle(old(created), result) && created == CreatedAfter(old(created), result)
      ensures log == old(log) + [Call.CreateDebugUtilsMessenger(instance, request, result, messenger)]
    {
      result := env.messengerResult;
      messenger := NewHandle(created, result);
      created := CreatedAfter(created, result);
      log := log + [Call.CreateDebugUtilsMessenger(instance, request, result, messenger)];
    }

    /** The resolved `vkDestroyDebugUtilsMessengerEXT`; only callable once resolved. */
    method DestroyDebugUtilsMessenger(instance: Handle, messenger: Handle)
      requires env.destroyMessengerResolves
      modifies this
      ensures created == old(created)
      ensures log == old(log) + [Call.DestroyDebugUtilsMessenger(instance, messenger)]
    {
      log := log + [Call.DestroyDebugUtilsMessenger(instance, messenger)];
    }

    /** `vkDestroyInstance`. */
    method DestroyInstance(instance: Handle)
      modifies this
      ensures created == old(created)
      ensures log == old(log) + [Call.DestroyInstance(instance)]
    {
      log := log + [Call.DestroyInstance(instance)];
    }

    /** `vkEnumeratePhysicalDevices` with a null array: the device count. */
    method EnumeratePhysicalDeviceCount(instance: Handle) returns (count: nat)
      modifies this
      ensures count == |env.devices|
      ensures created == old(created)
      ensures log == old(log) + [Call.EnumeratePhysicalDevices(instance, false)]
    {
      count := |env.devices|;
      log := log + [Call.EnumeratePhysicalDevices(instance, false)];
    }

    /** `vkEnumeratePhysicalDevices` with an array: every device, in order. */
    method EnumeratePhysicalDevices(instance: Handle) returns (devices: seq<PhysicalDevice>)
      modifies this
      ensures devices == env.devices
      ensures created == old(created)
      ensures log == old(log) + [Call.EnumeratePhysicalDevices(instance, true)]
    {
      devices := env.devices;
      log := log + [Call.EnumeratePhysicalDevices(instance, true)];
    }
  }
}
