/** What the construction protocol and the destructor of `VulkanContext`
    promise, stated over the recorded driver calls. */
module Lifecycle {
  import opened Outcomes
  import opened Vulkan
  import opened Host
  import opened DebugMessenger
  import opened Context

  /** The bootstrap runs to the end exactly when the layers are there (if
      asked for), the instance is created, and (with validation) the messenger
      entry point resolves and the messenger is created. */
  lemma BootstrapSucceedsIff(env: Environment, enableValidationLayers: bool, created: nat)
    ensures Bootstrap(env, enableValidationLayers, created).outcome.Ok? <==>
      && (enableValidationLayers ==> LayersAvailable(ValidationLayers, env.availableLayers))
      && env.instanceResult == Success
      && (enableValidationLayers ==> env.createMessengerResolves && env.messengerResult == Success)
  {
  }

  /** With validation on and a requested layer missing, construction fails
      before any driver object is created. */
  lemma UnsupportedLayersFailBeforeInstance(env: Environment, created: nat)
    requires !LayersAvailable(ValidationLayers, env.availableLayers)
    ensures Bootstrap(env, true, created) == BootRun([], Err(ValidationLayersUnsupported), created)
  {
  }

  /** With validation off: one instance request with no layers and nothing
      chained, exactly the window system's extensions, and no messenger. */
  lemma ReleaseBuildSkipsValidation(env: Environment, created: nat)
    ensures var run := Bootstrap(env, false, created);
      && |run.calls| == 1
      && run.calls[0].CreateInstance?
      && run.calls[0].request.enabledLayerNames == []
      && run.calls[0].request.next == None
      && run.calls[0].request.enabledExtensionNames == env.windowExtensions
      && (run.outcome.Ok? <==> env.instanceResult == Success)
      && (run.outcome.Err? ==> run.outcome.error == InstanceCreationFailed)
  {
  }

  /** With validation on and the layers present, the instance request enables
      the validation layer, asks for the debug-utils extension last, and chains
      the messenger create-info so that instance creation is reported too. */
  lemma DebugBuildRequest(env: Environment, created: nat)
    requires LayersAvailable(ValidationLayers, env.availableLayers)
    ensures var run := Bootstrap(env, true, created);
      && |run.calls| >= 1
      && run.calls[0].CreateInstance?
      && run.calls[0].request.enabledLayerNames == ["VK_LAYER_KHRONOS_validation"]
      && run.calls[0].request.enabledExtensionNames == env.windowExtensions + [DebugUtilsExtensionName]
      && run.calls[0].request.next == Some(DebugMessengerInfo())
      && run.calls[0].request.applicationInfo == Some(AppInfo)
  {
  }

  /** A refused instance ends construction: nothing else is called. */
  lemma InstanceFailureIsFatal(env: Environment, enableValidationLayers: bool, created: nat)
    requires enableValidationLayers ==> LayersAvailable(ValidationLayers, env.availableLayers)
    requires env.instanceResult != Success
    ensures var run := Bootstrap(env, enableValidationLayers, created);
      && run.outcome == Err(InstanceCreationFailed)
      && |run.calls| == 1 && run.calls[0].CreateInstance? && run.calls[0].instance == NullHandle
      && run.created == created
  {
  }

  /** A messenger that cannot be set up fails construction after the instance
      exists, and the instance is not destroyed on that path. */
  lemma MessengerFailureLeavesInstance(env: Environment, created: nat)
    requires LayersAvailable(ValidationLayers, env.availableLayers)
    requires env.instanceResult == Success
    requires !(env.createMessengerResolves && env.messengerResult == Success)
    ensures var run := Bootstrap(env, true, created);
      && run.outcome == Err(DebugMessengerSetupFailed)
      && run.calls[0] == Call.CreateInstance(InstanceRequest(env.windowExtensions, true), Success, created + 1)
      && (forall c | c in run.calls :: !c.DestroyInstance?)
      && run.created >= created + 1
  {
  }

  /** The fallback when the create entry point is missing: no messenger call at all. */
  lemma MissingEntryPointMakesNoMessengerCall(env: Environment, created: nat)
    requires LayersAvailable(ValidationLayers, env.availableLayers)
    requires env.instanceResult == Success && !env.createMessengerResolves
    ensures var run := Bootstrap(env, true, created);
      run.outcome == Err(DebugMessengerSetupFailed) && forall c | c in run.calls :: !c.CreateDebugUtilsMessenger?
  {
  }

  /** A constructed context owns fresh, non-null handles: the instance, and the
      messenger when validation is on. */
  lemma SuccessfulBootHandles(env: Environment, enableValidationLayers: bool, created: nat)
    requires Bootstrap(env, enableValidationLayers, created).outcome.Ok?
    ensures var run := Bootstrap(env, enableValidationLayers, created);
      && run.outcome.value.instance == created + 1
      && (enableValidationLayers ==> run.outcome.value.messenger == created + 2 && run.created == created + 2)
      && (!enableValidationLayers ==> run.outcome.value.messenger == NullHandle && run.created == created + 1)
  {
  }

  /** The destructor destroys the instance last and once; with validation on
      and the entry point found, the messenger goes strictly before it; with
      validation off the messenger is never touched. */
  lemma TeardownOrder(enableValidationLayers: bool, destroyMessengerResolves: bool, instance: Handle, messenger: Handle)
    ensures var calls := Teardown(enableValidationLayers, destroyMessengerResolves, instance, messenger);
      && |calls| >= 1
      && calls[|calls| - 1] == Call.DestroyInstance(instance)
      && (forall i | 0 <= i < |calls| - 1 :: !calls[i].DestroyInstance?)
      && (enableValidationLayers && destroyMessengerResolves ==>
            calls == [Call.DestroyDebugUtilsMessenger(instance, messenger), Call.DestroyInstance(instance)])
      && (!enableValidationLayers ==> calls == [Call.DestroyInstance(instance)])
  {
  }

  /** A whole debug-build lifetime: objects are destroyed in the reverse of the
      order they were created in. */
  lemma DebugLifetimeIsLastInFirstOut(env: Environment, created: nat)
    requires Bootstrap(env, true, created).outcome.Ok?
    requires env.destroyMessengerResolves
    ensures var run := Bootstrap(env, true, created);
      var h := run.outcome.value;
      var calls := run.calls + Teardown(true, true, h.instance, h.messenger);
      && |calls| == 4
      && calls[0].CreateInstance? && calls[0].instance == h.instance
      && calls[1].CreateDebugUtilsMessenger? && calls[1].messenger == h.messenger
      && calls[2] == Call.DestroyDebugUtilsMessenger(h.instance, h.messenger)
      && calls[3] == Call.DestroyInstance(h.instance)
  {
  }
}
