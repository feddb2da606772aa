/** `VulkanContext`: the process-wide Vulkan instance, its validation layers and
    debug messenger, how it is constructed, and how it is torn down. */
module Context {
  import opened Outcomes
  import opened Vulkan
  import opened Host
  import opened DebugMessenger

  /** `_validationLayers`: the layers requested when validation is enabled. */
  const ValidationLayers: seq<string> := ["VK_LAYER_KHRONOS_validation"]

  /** The four errors the bootstrap throws, one per `std::runtime_error`. */
  datatype BootError =
    | ValidationLayersUnsupported  // "Can't support validation layers."
    | InstanceCreationFailed       // "Error while creating Vulkan instance."
    | DebugMessengerSetupFailed    // "Failed to set up debug messenger."
    | NoVulkanDevice               // "No GPU with Vulkan support."

  /** Every requested layer name equals some available layer name. */
  predicate LayersAvailable(requested: seq<string>, available: seq<string>) {
    forall i | 0 <= i < |requested| :: requested[i] in available
  }

  /** `checkValidationLayerSupport`: for each requested name scan the available
      list with a found-flag, and give up at the first name that is missing. */
  method CheckValidationLayerSupport(validationLayers: seq<string>, availableLayers: seq<string>)
    returns (supported: bool)
    ensures supported <==> LayersAvailable(validationLayers, availableLayers)
  {
    var i := 0;
    while i < |validationLayers|
      invariant 0 <= i <= |validationLayers|
      invariant forall k | 0 <= k < i :: validationLayers[k] in availableLayers
    {
      var layerName := validationLayers[i];
      var layerFound := false;
      var j := 0;
      while j < |availableLayers|
        invariant 0 <= j <= |availableLayers|
        invariant !layerFound
        invariant forall m | 0 <= m < j :: availableLayers[m] != layerName
      {
        if layerName == availableLayers[j] {
          layerFound := true;
          break;
        }
        j := j + 1;
      }
      if !layerFound {
        return false;
      }
      i := i + 1;
    }
    return true;
  }

  /** The extension list requested from the driver: the window system's list,
      in its order, followed by the debug-utils extension when validation is on. */
  function RequiredExtensions(windowExtensions: seq<string>, enableValidationLayers: bool): (extensions: seq<string>)
    ensures |extensions| == |windowExtensions| + (if enableValidationLayers then 1 else 0)
    ensures extensions[..|windowExtensions|] == windowExtensions
    ensures enableValidationLayers ==> extensions[|windowExtensions|] == DebugUtilsExtensionName
  {
    if enableValidationLayers then windowExtensions + [DebugUtilsExtensionName] else windowExtensions
  }

  /** `getRequiredExtensions`: copy the window system's list, then push back. */
  method GetRequiredExtensions(windowExtensions: seq<string>, enableValidationLayers: bool)
    returns (extensions: seq<string>)
    ensures extensions == RequiredExtensions(windowExtensions, enableValidationLayers)
  {
    extensions := windowExtensions;
    if enableValidationLayers {
      extensions := extensions + [DebugUtilsExtensionName];
    }
  }

  /** The application description filled in by the constructor. */
  const AppInfo := ApplicationInfo(
    StructureTypeApplicationInfo, "Application", MakeVersion(1, 0, 0), "None", MakeVersion(1, 0, 0), ApiVersion10)

  /** The application, engine and API versions the constructor writes all read back as 1.0.0. */
  lemma AppInfoVersions()
    ensures VersionMajor(AppInfo.applicationVersion) == 1 && VersionMinor(AppInfo.applicationVersion) == 0
    ensures VersionPatch(AppInfo.applicationVersion) == 0
    ensures VersionMajor(AppInfo.engineVersion) == 1 && VersionMinor(AppInfo.engineVersion) == 0
    ensures VersionPatch(AppInfo.engineVersion) == 0
    ensures VersionMajor(AppInfo.apiVersion) == 1 && VersionMinor(AppInfo.apiVersion) == 0
    ensures VersionPatch(AppInfo.apiVersion) == 0
  {
    MakeVersionRoundTrip(1, 0, 0);
  }

  /** The `VkInstanceCreateInfo` the constructor hands to `vkCreateInstance`. */
  function InstanceRequest(windowExtensions: seq<string>, enableValidationLayers: bool): InstanceCreateInfo {
    InstanceCreateInfo(
      StructureTypeInstanceCreateInfo,
      Some(AppInfo),
      if enableValidationLayers then ValidationLayers else [],
      RequiredExtensions(windowExtensions, enableValidationLayers),
      if enableValidationLayers then Some(DebugMessengerInfo()) else None)
  }

  /** The handles a successfully constructed context holds. */
  datatype Handles = Handles(instance: Handle, messenger: Handle)

  /** One run of the constructor: the driver calls it makes, how it ends, and
      how many driver objects exist afterwards. */
  datatype BootRun = BootRun(calls: seq<Call>, outcome: Result<Handles, BootError>, created: nat)

  /** The construction protocol, step by step: layer check, instance creation
      with the request above, then (with validation) the debug messenger. */
  function Bootstrap(env: Environment, enableValidationLayers: bool, created: nat): BootRun {
    if enableValidationLayers && !LayersAvailable(ValidationLayers, env.availableLayers) then
      BootRun([], Err(ValidationLayersUnsupported), created)
    else
      var instance := NewHandle(created, env.instanceResult);
      var afterInstance := CreatedAfter(created, env.instanceResult);
      var calls := [Call.CreateInstance(InstanceRequest(env.windowExtensions, enableValidationLayers), env.instanceResult, instance)];
      if env.instanceResult != Success then
        BootRun(calls, Err(InstanceCreationFailed), afterInstance)
      else if !enableValidationLayers then
        BootRun(calls, Ok(Handles(instance, NullHandle)), afterInstance)
      else if !env.createMessengerResolves then
        BootRun(calls, Err(DebugMessengerSetupFailed), afterInstance)
      else
        var messenger := NewHandle(afterInstance, env.messengerResult);
        var afterMessenger := CreatedAfter(afterInstance, env.messengerResult);
        var allCalls := calls + [Call.CreateDebugUtilsMessenger(instance, DebugMessengerInfo(), env.messengerResult, messenger)];
        if env.messengerResult != Success then
          BootRun(allCalls, Err(DebugMessengerSetupFailed), afterMessenger)
        else
          BootRun(allCalls, Ok(Handles(instance, messenger)), afterMessenger)
  }

  /** The driver calls of the destructor. */
  function Teardown(enableValidationLayers: bool, destroyMessengerResolves: bool, instance: Handle, messenger: Handle): seq<Call> {
    (if enableValidationLayers && destroyMessengerResolves then [Call.DestroyDebugUtilsMessenger(instance, messenger)] else [])
    + [Call.DestroyInstance(instance)]
  }

  class VulkanContext {
    const platform: Platform
    /** true unless the program is built with NDEBUG; fixed for the object's lifetime */
    const enableValidationLayers: bool
    /** `_handle`, the `VkInstance` */
    var handle: Handle
    /** `_debugMessenger` */
    var debugMessenger: Handle

    /** The object's storage before the constructor body runs. */
    constructor Allocate(platform: Platform, enableValidationLayers: bool)
      ensures this.platform == platform && this.enableValidationLayers == enableValidationLayers
      ensures handle == NullHandle && debugMessenger == NullHandle
    {
      this.platform := platform;
      this.enableValidationLayers := enableValidationLayers;
      handle := NullHandle;
      debugMessenger := NullHandle;
    }

    /** `CreateDebugUtilsMessengerEXT`: look the entry point up, call it if found,
        else report that the extension is missing and leave the handle alone. */
    method CreateDebugUtilsMessengerEXT(instance: Handle, createInfo: MessengerCreateInfo) returns (result: VkResult)
      modifies this`debugMessenger, platform
      ensures platform.env.createMessengerResolves ==>
        && result == platform.env.messengerResult
        && debugMessenger == NewHandle(old(platform.created), result)
        && platform.created == CreatedAfter(old(platform.created), result)
        && platform.log == old(platform.log) + [Call.CreateDebugUtilsMessenger(instance, createInfo, result, debugMessenger)]
      ensures !platform.env.createMessengerResolves ==>
        result == ErrorExtensionNotPresent && debugMessenger == old(debugMessenger) && unchanged(platform)
    {
      var found := platform.env.createMessengerResolves;
      if found {
        result, debugMessenger := platform.CreateDebugUtilsMessenger(instance, createInfo);
      } else {
        result := ErrorExtensionNotPresent;
      }
    }

    /** `DestroyDebugUtilsMessengerEXT`: call the entry point if it is found, else do nothing. */
    method DestroyDebugUtilsMessengerEXT(instance: Handle, messenger: Handle)
      modifies platform
      ensures platform.created == old(platform.created)
      ensures platform.log == old(platform.log) +
        (if platform.env.destroyMessengerResolves then [Call.DestroyDebugUtilsMessenger(instance, messenger)] else [])
    {
      var found := platform.env.destroyMessengerResolves;
      if found {
        platform.DestroyDebugUtilsMessenger(instance, messenger);
      }
    }

    /** `setupDebugMessenger`: nothing without validation; otherwise create the
        messenger on the live instance, and fail if that does not succeed. */
    method SetupDebugMessenger() returns (failure: Option<BootError>)
      modifies this`debugMessenger, platform
      ensures !enableValidationLayers ==> failure == None && unchanged(this) && unchanged(platform)
      ensures enableValidationLayers ==>
        var env := platform.env;
        && (failure == None <==> env.createMessengerResolves && env.messengerResult == Success)
        && (failure != None ==> failure == Some(DebugMessengerSetupFailed))
        && (env.createMessengerResolves ==>
              && debugMessenger == NewHandle(old(platform.created), env.messengerResult)
              && platform.created == CreatedAfter(old(platform.created), env.messengerResult)
              && platform.log == old(platform.log) +
                   [Call.CreateDebugUtilsMessenger(handle, DebugMessengerInfo(), env.messengerResult, debugMessenger)])
        && (!env.createMessengerResolves ==> debugMessenger == old(debugMessenger) && unchanged(platform))
    {
      if !enableValidationLayers {
        return None;
      }
      var createInfo := PopulateDebugMessengerCreateInfo();
      var result := CreateDebugUtilsMessengerEXT(handle, createInfo);
      if result != Success {
        return Some(DebugMessengerSetupFailed);
      }
      return None;
    }

    /** The constructor `VulkanContext()`, which either yields a context or throws. */
    static method Create(platform: Platform, enableValidationLayers: bool) returns (r: Result<VulkanContext, BootError>)
      modifies platform
      ensures var run := Bootstrap(platform.env, enableValidationLayers, old(platform.created));
        && platform.log == old(platform.log) + run.calls
        && platform.created == run.created
        && (r.Ok? <==> run.outcome.Ok?)
        && (r.Err? ==> r.error == run.outcome.error)
        && (r.Ok? ==>
              && fresh(r.value)
              && r.value.platform == platform
              && r.value.enableValidationLayers == enableValidationLayers
              && r.value.handle == run.outcome.value.instance
              && r.value.debugMessenger == run.outcome.value.messenger)
    {
      var context := new VulkanContext.Allocate(platform, enableValidationLayers);
      if enableValidationLayers {
        var supported := CheckValidationLayerSupport(ValidationLayers, platform.env.availableLayers);
        if !supported {
          return Err(ValidationLayersUnsupported);
        }
      }

      var appInfo := ZeroApplicationInfo;
      appInfo := appInfo.(sType := StructureTypeApplicationInfo);
      appInfo := appInfo.(applicationName := "Application");
      appInfo := appInfo.(applicationVersion := MakeVersion(1, 0, 0));
      appInfo := appInfo.(engineName := "None");
      appInfo := appInfo.(engineVersion := MakeVersion(1, 0, 0));
      appInfo := appInfo.(apiVersion := ApiVersion10);

      var createInfo := ZeroInstanceCreateInfo;
      createInfo := createInfo.(sType := StructureTypeInstanceCreateInfo);
      createInfo := createInfo.(applicationInfo := Some(appInfo));

      var extensions := GetRequiredExtensions(platform.env.windowExtensions, enableValidationLayers);
      createInfo := createInfo.(enabledExtensionNames := extensions);
      if enableValidationLayers {
        createInfo := createInfo.(enabledLayerNames := ValidationLayers);
        var debugCreateInfo := PopulateDebugMessengerCreateInfo();
        createInfo := createInfo.(next := Some(debugCreateInfo));
      } else {
        createInfo := createInfo.(enabledLayerNames := []);
        createInfo := createInfo.(next := None);
      }

      var result;
      result, context.handle := platform.CreateInstance(createInfo);
      if result != Success {
        return Err(InstanceCreationFailed);
      }

      var failure := context.SetupDebugMessenger();
      if failure.Some? {
        return Err(failure.value);
      }
      return Ok(context);
    }

    /** The destructor `~VulkanContext()`: the messenger (when validation is on)
        before the instance. */
    method Destroy()
      modifies platform
      ensures platform.created == old(platform.created)
      ensures platform.log == old(platform.log) +
        Teardown(enableValidationLayers, platform.env.destroyMessengerResolves, handle, debugMessenger)
    {
      if enableValidationLayers {
        DestroyDebugUtilsMessengerEXT(handle, debugMessenger);
      }
      platform.DestroyInstance(handle);
    }
  }

  /** The function-static `VulkanContext` behind `VulkanContext::getInstance()`. */
  class ContextSingleton {
    const platform: Platform
    /** the build configuration: true unless built with NDEBUG */
    const validationEnabled: bool
    /** the static local: absent until a construction succeeds */
    var instance: Option<VulkanContext>

    constructor (platform: Platform, ndebug: bool)
      ensures this.platform == platform && validationEnabled == !ndebug && instance == None
    {
      this.platform := platform;
      validationEnabled := !ndebug;
      instance := None;
    }

    ghost predicate Valid()
      reads this
    {
      instance.Some? ==>
        instance.value.platform == platform && instance.value.enableValidationLayers == validationEnabled
    }

    /** `getInstance`: construct on the first call (a throwing construction
        leaves nothing behind, so the next call tries again), and afterwards
        hand back the same object without touching the driver. */
    method GetInstance() returns (r: Result<VulkanContext, BootError>)
      requires Valid()
      modifies this, platform
      ensures Valid()
      ensures old(instance).Some? ==>
        r == Ok(old(instance).value) && instance == old(instance) && unchanged(platform)
      ensures old(instance).None? ==>
        var run := Bootstrap(platform.env, validationEnabled, old(platform.created));
        && platform.log == old(platform.log) + run.calls
        && platform.created == run.created
        && (r.Ok? <==> run.outcome.Ok?)
        && (r.Err? ==> r.error == run.outcome.error && instance == None)
        && (r.Ok? ==>
              && fresh(r.value)
              && instance == Some(r.value)
              && r.value.handle == run.outcome.value.instance
              && r.value.debugMessenger == run.outcome.value.messenger)
    {
      if instance.Some? {
        return Ok(instance.value);
      }
      r := VulkanContext.Create(platform, validationEnabled);
      if r.Ok? {
        instance := Some(r.value);
      }
    }
  }
}
