# Vulkan bootstrap and device selection

A Dafny model of the Vulkan start-up code of a small C++ renderer: the
process-wide `VulkanContext` (validation-layer check, extension list, instance
creation, debug messenger, teardown, singleton accessor) and the
`PhysicalDevice` device cache with its three-tier selection policy.

The Vulkan driver and GLFW are abstracted as a fixed `Host.Environment`: the
layer names the driver lists, GLFW's required extensions, the results of
`vkCreateInstance` and of the debug-messenger entry points (including whether
`vkGetInstanceProcAddr` finds them), and the enumerated devices. A
`Host.Platform` object answers from it and records, in order, each call that
creates, destroys or enumerates driver objects. A thrown `std::runtime_error`
is an `Err` of `Context.BootError`.

Files, one module each: `outcomes.dfy` (Option, Result), `vulkan.dfy`
(constants and structures of the Vulkan specification), `host.dfy` (driver and
window-system stand-in), `debug_messenger.dfy` (`debugCallback`,
`populateDebugMessengerCreateInfo`), `context.dfy` (`VulkanContext` and its
singleton), `lifecycle.dfy` (properties of construction and teardown),
`devices.dfy` (`getPhysicalDevices`, `pickDevice`).

`Context.Bootstrap` is the construction protocol written as a function of the
driver's answers; `VulkanContext.Create` is proved to make exactly its calls
and end with its outcome, and `lifecycle.dfy` proves what the protocol
promises about it. `Context.Teardown` does the same for the destructor.

The model keeps these behaviours of the code, although a cleaner design would avoid them:
- When the debug messenger cannot be set up, the code throws without destroying the instance it just created. Nothing is unwound.
- The extension list is an ordered sequence that keeps duplicates, not a set.
- `pickDevice` does not pass its `force` argument on, so a forced pick still uses the cache.
- The destructor destroys the messenger only when `vkGetInstanceProcAddr` finds the destroy entry point. Otherwise it silently skips it.
- The header names the instance field `_instance` and the `.cc` file uses `_handle`. The model has one field, `handle`.

## Model

| member | source | states |
|---|---|---|
| `Context.AppInfoVersions` | src/application.cc:103-109 | the application, engine and API versions written into the application info all decode to 1.0.0 |
| `DebugMessenger.DebugCallback` | src/application.cc:3-12 | the callback always returns VK_FALSE, and writes the message exactly when its severity is numerically at least WARNING |
| `DebugMessenger.DebugMessengerInfo` | src/application.cc:73-84 | the messenger create-info subscribes VERBOSE, WARNING and ERROR and not INFO (no other severity bit), the GENERAL, VALIDATION and PERFORMANCE types, and `debugCallback` |
| `DebugMessenger.PopulateDebugMessengerCreateInfo` | src/application.cc:73-84 | resetting the struct and filling it field by field yields exactly that create-info |
| `DebugMessenger.ReportedSeverities` | src/application.cc:77-79 | with the hook installed, of the four severities exactly WARNING and ERROR are written out; VERBOSE is delivered and dropped, INFO is never delivered |
| `Context.CheckValidationLayerSupport` | src/application.cc:14-35 | returns true iff every requested layer name equals some available name (so true for an empty request), and false as soon as one is missing |
| `Context.RequiredExtensions` | src/application.cc:37-49 | the window-system extensions come first in their order; with validation the debug-utils extension follows as the one extra, last element; without it the length is unchanged |
| `Context.GetRequiredExtensions` | src/application.cc:37-49 | the copy-then-push_back construction yields that list |
| `Context.VulkanContext.Allocate` | src/application.hh:42-51 | a context starts with a fixed validation flag and null instance and messenger handles |
| `Context.VulkanContext.CreateDebugUtilsMessengerEXT` | src/application.cc:51-61 | when the entry point resolves, its result and new handle are passed through; when it does not, the result is VK_ERROR_EXTENSION_NOT_PRESENT, no messenger is created (no recorded driver call) and the handle is left alone |
| `Context.VulkanContext.DestroyDebugUtilsMessengerEXT` | src/application.cc:63-71 | destroys the messenger when the entry point resolves, and otherwise records no driver call (only the entry-point lookup happens) |
| `Context.VulkanContext.SetupDebugMessenger` | src/application.cc:86-96 | without validation nothing changes; with it the messenger is created on the live instance with the populated create-info, and setup fails iff the entry point is missing or the creation does not succeed |
| `Context.VulkanContext.Create` | src/application.cc:98-136 | construction makes exactly the driver calls of the protocol and ends with its outcome; on success it yields a fresh context holding the created handles |
| `Context.VulkanContext.Destroy` | src/application.hh:65-71 | the destructor makes exactly the teardown calls: the messenger (with validation, if the entry point resolves), then the instance |
| `Context.ContextSingleton.constructor` | src/application.hh:46-50 | validation is enabled iff the build is not NDEBUG, and no context exists yet |
| `Context.ContextSingleton.GetInstance` | src/application.hh:37-40 | the first call constructs the context; once one exists every call returns that same object and touches nothing; a failed construction leaves none, so the next call constructs again |
| `Lifecycle.BootstrapSucceedsIff` | src/application.cc:98-136 | construction succeeds iff the layers are available (when validation is on), the instance is created, and (with validation) the messenger entry point resolves and creation succeeds |
| `Lifecycle.UnsupportedLayersFailBeforeInstance` | src/application.cc:99-101 | with validation on and a layer missing, construction fails before any driver object is created: no recorded driver call, only the layer query |
| `Lifecycle.ReleaseBuildSkipsValidation` | src/application.cc:119-127 | without validation the single instance request has no layers, no chained messenger info and only the window-system extensions, and no messenger is created |
| `Lifecycle.DebugBuildRequest` | src/application.cc:103-123 | with validation the instance request enables exactly `VK_LAYER_KHRONOS_validation`, asks for the debug-utils extension last, chains the messenger create-info and carries the application info |
| `Lifecycle.InstanceFailureIsFatal` | src/application.cc:129-132 | a refused instance ends construction with an error after that single call |
| `Lifecycle.MessengerFailureLeavesInstance` | src/application.cc:129-135 | a messenger failure is an error raised after the instance was created, and no call destroys that instance |
| `Lifecycle.MissingEntryPointMakesNoMessengerCall` | src/application.cc:54-60 | when the create entry point is missing, construction fails and no messenger creation call is made |
| `Lifecycle.SuccessfulBootHandles` | src/application.cc:129-135 | a constructed context holds a newly created instance and, with validation, a newly created messenger; without validation the messenger stays null |
| `Lifecycle.TeardownOrder` | src/application.hh:65-71 | the instance is destroyed last and once; with validation (entry point found) the messenger is destroyed strictly before it; without validation the messenger is never touched |
| `Lifecycle.DebugLifetimeIsLastInFirstOut` | src/application.hh:65-71 | over a whole debug-build lifetime the calls are create instance, create messenger, destroy messenger, destroy instance |
| `Devices.FirstOfType` | src/application.cc:162-170 | finds the first device of a given type, and finds none iff no device has that type |
| `Devices.PreferredIndex` | src/application.cc:160-172 | the chosen position is within a non-empty device list |
| `Devices.SelectionTiers` | src/application.cc:160-172 | the first discrete GPU if any; otherwise the first integrated GPU if any; otherwise the first device |
| `Devices.SelectionExamples` | src/application.cc:160-172 | [integrated, discrete, discrete] picks position 1; [cpu, integrated] picks 1; [cpu, other] picks 0 |
| `Devices.ChooseDevice` | src/application.cc:161-171 | the two early-returning scans over the copied list return the device the policy prefers |
| `Devices.DeviceCatalog.constructor` | src/application.cc:139 | the cache starts empty |
| `Devices.DeviceCatalog.GetPhysicalDevices` | src/application.cc:138-158 | a non-empty cache is returned unchanged with no driver call unless `force`; `force` clears it first; otherwise the context is fetched (constructed through the bootstrap protocol if it does not exist yet, whose error is passed on), the count query and (for a non-zero count) the handle fetch are recorded, a count of zero is an error that leaves the cache empty, and otherwise the result and the cache are exactly the enumerated devices in order |
| `Devices.DeviceCatalog.PickDevice` | src/application.cc:160-172 | the cache is consulted unforced whatever `force` says: a non-empty cache yields its preferred device with nothing else changed; an empty one is filled as `getPhysicalDevices` does (constructing the context if needed), and the pick then succeeds with the preferred enumerated device iff the context exists and some device is enumerated |

## Left out

- GLFW start-up and shutdown (`GlfwContext`) and the `Window` class: windowing with no decision logic. GLFW appears only as its list of required extensions.
- `src/main.cc` and the printers in `src/utils.hh`: program plumbing and console formatting.
- All console output. Of `debugCallback` only "was the message written" is kept, not the text.
- The driver and GLFW calls themselves are stand-ins answering from fixed inputs. Each call gives the same answer every time it is made.
- Layer enumeration and entry-point lookup are queries, so they are not recorded in the call log.
- The `PhysicalDevice` class is not part of this model. A device is a record of handle, name and type, and its constructor's property query is folded into enumeration.
- `Devices.DeviceCatalog.PickDevice`: returns the chosen device as a value. The source returns a reference into a local copy of the list, which dangles once the function returns.
- Copy and assignment of `VulkanContext` are deleted in the source; a Dafny object is only ever shared by reference, so there is nothing to model.
- Destruction of the static singleton at program exit is not modelled beyond the destructor itself.
- Thread safety of the function-static cache and of the static-local singleton: concurrency is not modelled.
- Queue-family scoring and logical-device creation: none of the source files implements them.
- The `vk_mem_alloc.h` library.
