/** The graphics context of src/gfx/vulkan/vulkan.rs: device and format selection in
    `Vulkan::new`, swapchain recreation, and the teardown order of `Drop`. Instance,
    debug-messenger and surface creation are foreign calls; their handles are
    parameters. The swapchain builder is not part of this model: a swapchain is known
    by its generation and the window size it was built for. */
module VulkanContext {
  import opened Wrappers
  import Events
  import SwapchainConfig
  import DeviceSetup

  /** What `Vulkan::new` decides before building anything but the swapchain. */
  datatype Setup = Setup(
    physicalDevice: nat,
    queueFamilyIndex: nat,
    presentQueue: DeviceSetup.Queue,
    surfaceFormat: SwapchainConfig.SurfaceFormat)

  /** The device and format choices of `Vulkan::new`: the same first-match selection as
      `Device::new`, then element 0 of the chosen device's surface formats. */
  function Configure(devices: seq<DeviceSetup.PhysicalDevice>): (r: Result<Setup>)
    ensures var sel := DeviceSetup.SelectPhysicalDevice(devices);
      && (r.Err? <==> sel.Err? || sel.value.physicalDevice.surfaceFormats == [])
      && (sel.Err? ==> r.error == Panic("no suitable Vulkan physical device"))
      && (r.Ok? ==>
            && r.value.physicalDevice == sel.value.physicalDevice.handle
            && r.value.queueFamilyIndex == sel.value.queueFamilyIndex
            && r.value.presentQueue == DeviceSetup.Queue(sel.value.queueFamilyIndex, 0)
            && r.value.surfaceFormat == sel.value.physicalDevice.surfaceFormats[0])
  {
    match DeviceSetup.SelectPhysicalDevice(devices)
    case Err(e) => Err(e)
    case Ok(sel) =>
      match SwapchainConfig.FirstFormat(sel.physicalDevice.surfaceFormats)
      case Err(e) => Err(e)
      case Ok(format) =>
        Ok(Setup(sel.physicalDevice.handle, sel.queueFamilyIndex,
                 DeviceSetup.Queue(sel.queueFamilyIndex, 0), format))
  }

  /** The chosen device is the first one with a family that can draw and present, and
      the family is its first such family. */
  lemma ConfigureIsFirstMatch(devices: seq<DeviceSetup.PhysicalDevice>)
    requires Configure(devices).Ok?
    ensures var s := Configure(devices).value;
      exists k :: 0 <= k < |devices|
        && devices[k].handle == s.physicalDevice
        && (forall j :: 0 <= j < k ==> !DeviceSetup.HasSuitableFamily(devices[j]))
        && DeviceSetup.IsFirstSuitableFamily(devices[k].queueFamilies, s.queueFamilyIndex)
        && s.surfaceFormat == devices[k].surfaceFormats[0]
  {
    var sel := DeviceSetup.SelectPhysicalDevice(devices).value;
    var k: nat :| k < |devices| && DeviceSetup.IsFirstMatchAt(devices, k, sel);
    assert devices[k] == sel.physicalDevice;
  }

  /** The swapchain held by `Vulkan`: which build it is and the window size it was
      built for. */
  datatype SwapchainRef = SwapchainRef(generation: nat, size: Events.PhysicalSize)

  /** An effect on the GPU objects, in the order `Vulkan` performs them. */
  datatype GpuCall =
    | BuildSwapchain(generation: nat, size: Events.PhysicalSize)
    | DeviceWaitIdle
    | DropSwapchain(generation: nat)
    | DestroyDevice
    | DestroySurface
    | DestroyDebugMessenger
    | DestroyInstance

  /** The objects `Vulkan` owns. */
  datatype Resource = SwapchainObj | DeviceObj | SurfaceObj | DebugMessengerObj | InstanceObj

  /** `a` is made from `b` and must be destroyed before it. */
  predicate DependsOn(a: Resource, b: Resource)
  {
    match a
    case SwapchainObj => b == DeviceObj || b == SurfaceObj || b == InstanceObj
    case DeviceObj | SurfaceObj | DebugMessengerObj => b == InstanceObj
    case InstanceObj => false
  }

  /** The object a call destroys, if any. */
  function Destroys(c: GpuCall): Option<Resource>
  {
    match c
    case DropSwapchain(_) => Some(SwapchainObj)
    case DestroyDevice => Some(DeviceObj)
    case DestroySurface => Some(SurfaceObj)
    case DestroyDebugMessenger => Some(DebugMessengerObj)
    case DestroyInstance => Some(InstanceObj)
    case _ => None
  }

  /** No object is destroyed after one it depends on. */
  predicate ChildrenFirst(calls: seq<GpuCall>)
  {
    forall i, j :: 0 <= i < j < |calls| && Destroys(calls[i]).Some? && Destroys(calls[j]).Some? ==>
      !DependsOn(Destroys(calls[j]).value, Destroys(calls[i]).value)
  }

  /** Every drop of a swapchain comes right after waiting for the device to go idle. */
  predicate WaitsBeforeDrop(calls: seq<GpuCall>)
  {
    forall i :: 0 <= i < |calls| && calls[i].DropSwapchain? ==> i > 0 && calls[i - 1] == DeviceWaitIdle
  }

  /** What `Drop` does: swapchain, device, surface, debug messenger, instance. */
  function TeardownCalls(generation: nat): seq<GpuCall>
  {
    [DropSwapchain(generation), DestroyDevice, DestroySurface, DestroyDebugMessenger, DestroyInstance]
  }

  /** The objects a sequence of calls destroys. */
  function DestroyedBy(calls: seq<GpuCall>): set<Resource>
  {
    set c | c in calls && Destroys(c).Some? :: Destroys(c).value
  }

  /** The teardown order respects every dependency and destroys every object once. */
  lemma TeardownIsSafe(generation: nat)
    ensures ChildrenFirst(TeardownCalls(generation))
    ensures DestroyedBy(TeardownCalls(generation))
      == {SwapchainObj, DeviceObj, SurfaceObj, DebugMessengerObj, InstanceObj}
    ensures forall i, j :: 0 <= i < j < |TeardownCalls(generation)| ==>
      Destroys(TeardownCalls(generation)[i]) != Destroys(TeardownCalls(generation)[j])
  {
    var t := TeardownCalls(generation);
    assert Destroys(t[0]) == Some(SwapchainObj) && Destroys(t[1]) == Some(DeviceObj);
    assert Destroys(t[2]) == Some(SurfaceObj) && Destroys(t[3]) == Some(DebugMessengerObj);
    assert Destroys(t[4]) == Some(InstanceObj);
  }

  class Vulkan {
    const instance: nat
    const debugCallback: nat
    const surface: nat
    const surfaceFormat: SwapchainConfig.SurfaceFormat
    const physicalDevice: nat
    const device: nat
    const presentQueue: DeviceSetup.Queue
    var swapchain: SwapchainRef
    /** Set by `Drop`; Rust allows no use of the value afterwards. */
    var dropped: bool
    /** Every effect on the GPU objects so far. */
    ghost var calls: seq<GpuCall>

    /** While alive: the held swapchain is the one built last, and every earlier
        swapchain was dropped only after the device went idle. */
    ghost predicate Valid()
      reads this
    {
      !dropped ==>
        && |calls| > 0
        && calls[|calls| - 1] == BuildSwapchain(swapchain.generation, swapchain.size)
        && WaitsBeforeDrop(calls)
    }

    /** `Vulkan::new` over the enumerated physical devices: it keeps the choices of
        `Configure`, and builds the swapchain from the window's current inner size.
        When `Configure` panics, `Vulkan::new` does too, hence the precondition. */
    constructor (devices: seq<DeviceSetup.PhysicalDevice>, instance: nat, debugCallback: nat,
                 surface: nat, device: nat, innerSize: Events.PhysicalSize)
      requires Configure(devices).Ok?
      ensures Valid() && !dropped
      ensures this.instance == instance && this.debugCallback == debugCallback
      ensures this.surface == surface && this.device == device
      ensures physicalDevice == Configure(devices).value.physicalDevice
      ensures presentQueue == Configure(devices).value.presentQueue
      ensures surfaceFormat == Configure(devices).value.surfaceFormat
      ensures swapchain == SwapchainRef(0, innerSize)
      ensures calls == [BuildSwapchain(0, innerSize)]
    {
      var setup := Configure(devices).value;
      this.instance, this.debugCallback, this.surface, this.device := instance, debugCallback, surface, device;
      physicalDevice, presentQueue, surfaceFormat := setup.physicalDevice, setup.presentQueue, setup.surfaceFormat;
      swapchain := SwapchainRef(0, innerSize);
      dropped := false;
      calls := [BuildSwapchain(0, innerSize)];
    }

    /** `clone_device`: another handle to the same device. */
    method CloneDevice() returns (d: nat)
      ensures d == device
    {
      d := device;
    }

    /** `surface_format()`: the format chosen at creation. */
    method GetSurfaceFormat() returns (f: SwapchainConfig.SurfaceFormat)
      ensures f == surfaceFormat
    {
      f := surfaceFormat;
    }

    /** `recreate_swapchain`: wait for the device to go idle, drop the old swapchain,
        build a new one from the window's current inner size. */
    method RecreateSwapchain(innerSize: Events.PhysicalSize)
      requires Valid() && !dropped
      modifies this`swapchain, this`calls
      ensures Valid() && !dropped
      ensures swapchain == SwapchainRef(old(swapchain.generation) + 1, innerSize)
      ensures calls == old(calls)
        + [DeviceWaitIdle, DropSwapchain(old(swapchain.generation)), BuildSwapchain(swapchain.generation, innerSize)]
    {
      var next := swapchain.generation + 1;
      calls := calls + [DeviceWaitIdle, DropSwapchain(swapchain.generation)];
      swapchain := SwapchainRef(next, innerSize);
      calls := calls + [BuildSwapchain(next, innerSize)];
    }

    /** `Drop`: swapchain, device, surface, debug messenger, instance, in that order. */
    method Drop()
      requires Valid() && !dropped
      modifies this`dropped, this`calls
      ensures dropped
      ensures calls == old(calls) + TeardownCalls(swapchain.generation)
      ensures WaitsBeforeDrop(old(calls))
    {
      dropped := true;
      calls := calls + TeardownCalls(swapchain.generation);
    }
  }

  /** A lifetime: create with the choices of `Configure`, recreate the swapchain twice (after two resizes), drop. The
      swapchain of every generation is built from the size current at that moment,
      recreation always waits for idle, and the teardown comes last. */
  method Lifetime(devices: seq<DeviceSetup.PhysicalDevice>,
                  sizes: (Events.PhysicalSize, Events.PhysicalSize, Events.PhysicalSize))
    returns (v: Vulkan)
    requires Configure(devices).Ok?
    ensures v.dropped
    ensures v.physicalDevice == Configure(devices).value.physicalDevice
    ensures v.surfaceFormat == Configure(devices).value.surfaceFormat
    ensures v.calls == [BuildSwapchain(0, sizes.0),
                        DeviceWaitIdle, DropSwapchain(0), BuildSwapchain(1, sizes.1),
                        DeviceWaitIdle, DropSwapchain(1), BuildSwapchain(2, sizes.2)]
                       + TeardownCalls(2)
  {
    v := new Vulkan(devices, 1, 2, 3, 4, sizes.0);
    v.RecreateSwapchain(sizes.1);
    v.RecreateSwapchain(sizes.2);
    v.Drop();
  }
}
