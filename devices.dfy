/** `PhysicalDevice::getPhysicalDevices` (the cached device list) and
    `PhysicalDevice::pickDevice` (the three-tier selection policy). */
module Devices {
  import opened Outcomes
  import opened Vulkan
  import opened Host
  import opened Context

  /** Some device in `devices` has type `t`. */
  predicate HasType(devices: seq<PhysicalDevice>, t: PhysicalDeviceType) {
    exists j | 0 <= j < |devices| :: devices[j].deviceType == t
  }

  /** The position of the first device of type `t`, if there is one. */
  function FirstOfType(devices: seq<PhysicalDevice>, t: PhysicalDeviceType): (r: Option<nat>)
    ensures r.None? <==> !HasType(devices, t)
    ensures r.Some? ==>
      && r.value < |devices|
      && devices[r.value].deviceType == t
      && forall j | 0 <= j < r.value :: devices[j].deviceType != t
  {
    if |devices| == 0 then None
    else if devices[0].deviceType == t then Some(0)
    else
      match FirstOfType(devices[1..], t)
      case None =>
        assert forall j | 1 <= j < |devices| :: devices[j] == devices[1..][j - 1];
        None
      case Some(i) => Some(i + 1)
  }

  /** The position `pickDevice` chooses: the first discrete GPU, else the first
      integrated GPU, else the first device. */
  function PreferredIndex(devices: seq<PhysicalDevice>): (i: nat)
    requires |devices| > 0
    ensures i < |devices|
  {
    match FirstOfType(devices, DiscreteGpu)
    case Some(i) => i
    case None =>
      match FirstOfType(devices, IntegratedGpu)
      case Some(i) => i
      case None => 0
  }

  /** The selection policy tier by tier. */
  lemma SelectionTiers(devices: seq<PhysicalDevice>)
    requires |devices| > 0
    ensures var i := PreferredIndex(devices);
      && (HasType(devices, DiscreteGpu) ==>
            devices[i].deviceType == DiscreteGpu && forall j | 0 <= j < i :: devices[j].deviceType != DiscreteGpu)
      && (!HasType(devices, DiscreteGpu) && HasType(devices, IntegratedGpu) ==>
            devices[i].deviceType == IntegratedGpu && forall j | 0 <= j < i :: devices[j].deviceType != IntegratedGpu)
      && (!HasType(devices, DiscreteGpu) && !HasType(devices, IntegratedGpu) ==> i == 0)
  {
  }

  /** Worked cases: an earlier integrated GPU loses to the first discrete one,
      a lone integrated GPU is taken, and without either the first device is. */
  lemma SelectionExamples(a: Handle, b: Handle, c: Handle)
    ensures PreferredIndex([PhysicalDevice(a, "igpu", IntegratedGpu), PhysicalDevice(b, "dgpu", DiscreteGpu),
                            PhysicalDevice(c, "dgpu", DiscreteGpu)]) == 1
    ensures PreferredIndex([PhysicalDevice(a, "cpu", Cpu), PhysicalDevice(b, "igpu", IntegratedGpu)]) == 1
    ensures PreferredIndex([PhysicalDevice(a, "cpu", Cpu), PhysicalDevice(b, "other", Other)]) == 0
  {
    var mixed := [PhysicalDevice(a, "igpu", IntegratedGpu), PhysicalDevice(b, "dgpu", DiscreteGpu),
                  PhysicalDevice(c, "dgpu", DiscreteGpu)];
    assert mixed[1].deviceType == DiscreteGpu;
    SelectionTiers(mixed);
    var integrated := [PhysicalDevice(a, "cpu", Cpu), PhysicalDevice(b, "igpu", IntegratedGpu)];
    assert integrated[1].deviceType == IntegratedGpu;
    SelectionTiers(integrated);
  }

  /** The two scans `pickDevice` runs over its copy of the device list. */
  method ChooseDevice(availableDevices: seq<PhysicalDevice>) returns (device: PhysicalDevice)
    requires |availableDevices| > 0
    ensures device == availableDevices[PreferredIndex(availableDevices)]
  {
    for i := 0 to |availableDevices|
      invariant forall j | 0 <= j < i :: availableDevices[j].deviceType != DiscreteGpu
    {
      if availableDevices[i].deviceType == DiscreteGpu {
        return availableDevices[i];
      }
    }
    for i := 0 to |availableDevices|
      invariant forall j | 0 <= j < i :: availableDevices[j].deviceType != IntegratedGpu
    {
      if availableDevices[i].deviceType == IntegratedGpu {
        return availableDevices[i];
      }
    }
    return availableDevices[0];
  }

  /** The calls one enumeration through `instance` records: the count query,
      and the handle fetch when the count is not zero. */
  function EnumerationCalls(instance: Handle, devices: seq<PhysicalDevice>): seq<Call> {
    [Call.EnumeratePhysicalDevices(instance, false)]
    + (if devices == [] then [] else [Call.EnumeratePhysicalDevices(instance, true)])
  }

  /** What `getPhysicalDevices` yields once it has enumerated `devices`. */
  function EnumerationResult(devices: seq<PhysicalDevice>): Result<seq<PhysicalDevice>, BootError> {
    if devices == [] then Err(NoVulkanDevice) else Ok(devices)
  }

  /** What `pickDevice` yields once `devices` has been enumerated. */
  function PickResult(devices: seq<PhysicalDevice>): Result<PhysicalDevice, BootError> {
    if devices == [] then Err(NoVulkanDevice) else Ok(devices[PreferredIndex(devices)])
  }

  /** The function-static device list of `getPhysicalDevices`, and `pickDevice`. */
  class DeviceCatalog {
    const contexts: ContextSingleton
    /** `availableDevices`, the static cache */
    var availableDevices: seq<PhysicalDevice>

    constructor (contexts: ContextSingleton)
      ensures this.contexts == contexts && availableDevices == []
    {
      this.contexts := contexts;
      availableDevices := [];
    }

    /** `getPhysicalDevices(force)`: a non-empty cache is returned as it is unless
        `force` clears it first; otherwise the devices are enumerated through the
        (possibly just constructed) context, and none at all is an error. */
    method GetPhysicalDevices(force: bool) returns (r: Result<seq<PhysicalDevice>, BootError>)
      requires contexts.Valid()
      modifies this, contexts, contexts.platform
      ensures contexts.Valid()
      ensures r.Ok? ==> r.value == availableDevices && availableDevices != []
      ensures r.Err? ==> availableDevices == []
      ensures !force && old(availableDevices) != [] ==>
        r == Ok(old(availableDevices)) && unchanged(this) && unchanged(contexts) && unchanged(contexts.platform)
      ensures (force || old(availableDevices) == []) ==>
        && (r.Ok? ==> availableDevices == contexts.platform.env.devices)
        && (contexts.platform.env.devices == [] ==> r.Err?)
      ensures (force || old(availableDevices) == []) && old(contexts.instance).Some? ==>
        var instance := old(contexts.instance).value.handle;
        && contexts.instance == old(contexts.instance)
        && contexts.platform.created == old(contexts.platform.created)
        && contexts.platform.log == old(contexts.platform.log) + EnumerationCalls(instance, contexts.platform.env.devices)
        && r == EnumerationResult(contexts.platform.env.devices)
      ensures (force || old(availableDevices) == []) && old(contexts.instance).None? ==>
        var run := Bootstrap(contexts.platform.env, contexts.validationEnabled, old(contexts.platform.created));
        && contexts.platform.created == run.created
        && (run.outcome.Err? ==>
              && r == Err(run.outcome.error)
              && contexts.instance == None
              && contexts.platform.log == old(contexts.platform.log) + run.calls)
        && (run.outcome.Ok? ==>
              var instance := run.outcome.value.instance;
              && contexts.instance.Some? && fresh(contexts.instance.value)
              && contexts.instance.value.handle == instance
              && contexts.instance.value.debugMessenger == run.outcome.value.messenger
              && contexts.platform.log == old(contexts.platform.log) + run.calls + EnumerationCalls(instance, contexts.platform.env.devices)
              && r == EnumerationResult(contexts.platform.env.devices))
    {
      if force {
        availableDevices := [];
      }
      if |availableDevices| > 0 {
        return Ok(availableDevices);
      }

      var context := contexts.GetInstance();
      if context.Err? {
        return Err(context.error);
      }
      var instance := context.value;
      var deviceCount := contexts.platform.EnumeratePhysicalDeviceCount(instance.handle);
      if deviceCount == 0 {
        return Err(NoVulkanDevice);
      }
      // each enumerated handle comes with the properties the `PhysicalDevice` constructor reads
      var enumerated := contexts.platform.EnumeratePhysicalDevices(instance.handle);

      var k := 0;
      while k < |enumerated|
        invariant 0 <= k <= |enumerated|
        invariant availableDevices == enumerated[..k]
        modifies this
      {
        availableDevices := availableDevices + [enumerated[k]];
        k := k + 1;
      }
      return Ok(availableDevices);
    }

    /** `pickDevice(force)`: asks for the device list WITHOUT passing `force` on,
        then picks from a copy of it. */
    method PickDevice(force: bool) returns (r: Result<PhysicalDevice, BootError>)
      requires contexts.Valid()
      modifies this, contexts, contexts.platform
      ensures contexts.Valid()
      ensures old(availableDevices) != [] ==>
        && r == Ok(old(availableDevices)[PreferredIndex(old(availableDevices))])
        && unchanged(this) && unchanged(contexts) && unchanged(contexts.platform)
      ensures old(availableDevices) == [] && r.Ok? ==> availableDevices == contexts.platform.env.devices
      ensures old(availableDevices) == [] && old(contexts.instance).Some? ==>
        var instance := old(contexts.instance).value.handle;
        && contexts.instance == old(contexts.instance)
        && contexts.platform.created == old(contexts.platform.created)
        && contexts.platform.log == old(contexts.platform.log) + EnumerationCalls(instance, contexts.platform.env.devices)
        && r == PickResult(contexts.platform.env.devices)
      ensures old(availableDevices) == [] && old(contexts.instance).None? ==>
        var run := Bootstrap(contexts.platform.env, contexts.validationEnabled, old(contexts.platform.created));
        && contexts.platform.created == run.created
        && (run.outcome.Err? ==>
              && r == Err(run.outcome.error)
              && contexts.instance == None
              && contexts.platform.log == old(contexts.platform.log) + run.calls)
        && (run.outcome.Ok? ==>
              var instance := run.outcome.value.instance;
              && contexts.instance.Some? && fresh(contexts.instance.value)
              && contexts.instance.value.handle == instance
              && contexts.instance.value.debugMessenger == run.outcome.value.messenger
              && contexts.platform.log == old(contexts.platform.log) + run.calls + EnumerationCalls(instance, contexts.platform.env.devices)
              && r == PickResult(contexts.platform.env.devices))
      ensures r.Ok? ==> availableDevices != [] && r.value == availableDevices[PreferredIndex(availableDevices)]
      ensures r.Err? ==> availableDevices == []
    {
      var devices := GetPhysicalDevices(false);
      if devices.Err? {
        return Err(devices.error);
      }
      var device := ChooseDevice(devices.value);
      return Ok(device);
    }
  }
}
