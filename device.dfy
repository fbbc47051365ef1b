/** Physical-device and queue-family selection and logical-device creation
    (src/gfx/vulkan/device.rs). The enumeration and the per-family surface-support
    query are foreign calls; their answers are part of the `PhysicalDevice` records. */
module DeviceSetup {
  import opened Wrappers
  import SwapchainConfig

  /** VkQueueFlagBits. */
  datatype QueueFlag = Graphics | Compute | Transfer | SparseBinding | Protected

  /** A queue family's properties, with the answer of
      `get_physical_device_surface_support` for this family and the window's surface. */
  datatype QueueFamily = QueueFamily(queueFlags: set<QueueFlag>, queueCount: nat, surfaceSupport: bool)

  /** A physical device as enumerated: its handle, its queue families in index order,
      and the surface formats it reports for the window's surface. */
  datatype PhysicalDevice = PhysicalDevice(
    handle: nat,
    queueFamilies: seq<QueueFamily>,
    surfaceFormats: seq<SwapchainConfig.SurfaceFormat>)

  /** The result of the selection pipeline: `(physical_device, queue_family_index)`. */
  datatype Selection = Selection(physicalDevice: PhysicalDevice, queueFamilyIndex: nat)

  /** A family that can draw and present to the window's surface. */
  predicate Suitable(f: QueueFamily)
  {
    Graphics in f.queueFlags && f.surfaceSupport
  }

  predicate HasSuitableFamily(d: PhysicalDevice)
  {
    exists i :: 0 <= i < |d.queueFamilies| && Suitable(d.queueFamilies[i])
  }

  /** `i` is the lowest index of a suitable family. */
  predicate IsFirstSuitableFamily(fams: seq<QueueFamily>, i: nat)
  {
    i < |fams| && Suitable(fams[i]) && forall j :: 0 <= j < i ==> !Suitable(fams[j])
  }

  /** `sel` picks device `k`, the first device with a suitable family, and its first
      suitable family. */
  predicate IsFirstMatchAt(devices: seq<PhysicalDevice>, k: nat, sel: Selection)
  {
    && k < |devices|
    && devices[k] == sel.physicalDevice
    && (forall j :: 0 <= j < k ==> !HasSuitableFamily(devices[j]))
    && IsFirstSuitableFamily(devices[k].queueFamilies, sel.queueFamilyIndex)
  }

  /** `enumerate().filter_map(..).next()` over one device's families, from index `from`. */
  function FirstSuitableFamily(fams: seq<QueueFamily>, from: nat): (r: Option<nat>)
    requires from <= |fams|
    requires forall j :: 0 <= j < from ==> !Suitable(fams[j])
    ensures r.None? <==> forall j :: 0 <= j < |fams| ==> !Suitable(fams[j])
    ensures r.Some? ==> IsFirstSuitableFamily(fams, r.value)
    decreases |fams| - from
  {
    if from == |fams| then None
    else if Suitable(fams[from]) then Some(from)
    else FirstSuitableFamily(fams, from + 1)
  }

  /** `map(..).flatten().next()` over the devices, from position `from`. */
  function FirstMatch(devices: seq<PhysicalDevice>, from: nat): (r: Option<Selection>)
    requires from <= |devices|
    requires forall j :: 0 <= j < from ==> !HasSuitableFamily(devices[j])
    ensures r.None? <==> forall j :: 0 <= j < |devices| ==> !HasSuitableFamily(devices[j])
    ensures r.Some? ==> exists k :: from <= k < |devices| && IsFirstMatchAt(devices, k, r.value)
    decreases |devices| - from
  {
    if from == |devices| then None
    else
      match FirstSuitableFamily(devices[from].queueFamilies, 0)
      case Some(i) =>
        assert IsFirstMatchAt(devices, from, Selection(devices[from], i));
        Some(Selection(devices[from], i))
      case None => FirstMatch(devices, from + 1)
  }

  /** The selection of `Device::new`, with its `expect`. */
  function SelectPhysicalDevice(devices: seq<PhysicalDevice>): (r: Result<Selection>)
    ensures r.Err? <==> forall j :: 0 <= j < |devices| ==> !HasSuitableFamily(devices[j])
    ensures r.Err? ==> r.error == Panic("no suitable Vulkan physical device")
    ensures r.Ok? ==> exists k :: 0 <= k < |devices| && IsFirstMatchAt(devices, k, r.value)
  {
    match FirstMatch(devices, 0)
    case None => Err(Panic("no suitable Vulkan physical device"))
    case Some(sel) => Ok(sel)
  }

  /** The first-match rule leaves no choice: at most one selection satisfies it. */
  lemma FirstMatchUnique(devices: seq<PhysicalDevice>, k1: nat, s1: Selection, k2: nat, s2: Selection)
    requires IsFirstMatchAt(devices, k1, s1) && IsFirstMatchAt(devices, k2, s2)
    ensures k1 == k2 && s1 == s2
  {
    assert HasSuitableFamily(devices[k1]) by {
      assert Suitable(devices[k1].queueFamilies[s1.queueFamilyIndex]);
    }
    assert HasSuitableFamily(devices[k2]) by {
      assert Suitable(devices[k2].queueFamilies[s2.queueFamilyIndex]);
    }
  }

  datatype QueueCreateInfo = QueueCreateInfo(queueFamilyIndex: nat, queuePriorities: seq<real>)

  datatype DeviceCreateInfo = DeviceCreateInfo(
    queueCreateInfos: seq<QueueCreateInfo>,
    enabledExtensionNames: seq<string>,
    shaderClipDistance: bool)

  /** A logical device, identified by its handle, with the create info it was made from. */
  datatype LogicalDevice = LogicalDevice(handle: nat, createInfo: DeviceCreateInfo)

  /** Queue `queueIndex` of family `familyIndex`, as `get_device_queue` returns it. */
  datatype Queue = Queue(familyIndex: nat, queueIndex: nat)

  /** `Device`; its accessors `physical_device()`, `device()` and `queue()` are the fields. */
  datatype Device = Device(physicalDevice: nat, device: LogicalDevice, queue: Queue)

  /** A destruction call. */
  datatype DestroyCall = DestroyDevice(handle: nat)

  /** The create info for the chosen family: one queue at priority 1.0, the swapchain
      extension, clip distances enabled. */
  function DeviceInfo(familyIndex: nat): DeviceCreateInfo
  {
    DeviceCreateInfo([QueueCreateInfo(familyIndex, [1.0])], ["VK_KHR_swapchain"], true)
  }

  /** `Device::new`, given the enumerated devices and the handle `create_device` returns. */
  function NewDevice(devices: seq<PhysicalDevice>, deviceHandle: nat): (r: Result<Device>)
    ensures r.Err? <==> forall j :: 0 <= j < |devices| ==> !HasSuitableFamily(devices[j])
    ensures r.Err? ==> r.error == Panic("no suitable Vulkan physical device")
    ensures r.Ok? ==> exists k, sel ::
      && IsFirstMatchAt(devices, k, sel)
      && r.value.physicalDevice == sel.physicalDevice.handle
      && r.value.device.handle == deviceHandle
      && r.value.device.createInfo.queueCreateInfos == [QueueCreateInfo(sel.queueFamilyIndex, [1.0])]
      && r.value.queue == Queue(sel.queueFamilyIndex, 0)
  {
    match SelectPhysicalDevice(devices)
    case Err(e) => Err(e)
    case Ok(sel) =>
      Ok(Device(sel.physicalDevice.handle,
                LogicalDevice(deviceHandle, DeviceInfo(sel.queueFamilyIndex)),
                Queue(sel.queueFamilyIndex, 0)))
  }

  /** The device holds a queue of the one family it requested, and that family can
      draw and present. */
  lemma NewDeviceQueueIsRequested(devices: seq<PhysicalDevice>, deviceHandle: nat)
    requires NewDevice(devices, deviceHandle).Ok?
    ensures var d := NewDevice(devices, deviceHandle).value;
      && |d.device.createInfo.queueCreateInfos| == 1
      && d.device.createInfo.queueCreateInfos[0].queueFamilyIndex == d.queue.familyIndex
      && d.queue.queueIndex == 0
      && exists k :: 0 <= k < |devices| && devices[k].handle == d.physicalDevice
           && d.queue.familyIndex < |devices[k].queueFamilies|
           && Suitable(devices[k].queueFamilies[d.queue.familyIndex])
  {
    var d := NewDevice(devices, deviceHandle).value;
    var k: nat, sel: Selection :| IsFirstMatchAt(devices, k, sel)
      && d.physicalDevice == sel.physicalDevice.handle
      && d.device.createInfo.queueCreateInfos == [QueueCreateInfo(sel.queueFamilyIndex, [1.0])]
      && d.queue == Queue(sel.queueFamilyIndex, 0);
    assert devices[k].handle == d.physicalDevice;
  }

  /** `destroy`: the logical device is destroyed. */
  method Destroy(d: Device) returns (calls: seq<DestroyCall>)
    ensures calls == [DestroyDevice(d.device.handle)]
  {
    calls := [DestroyDevice(d.device.handle)];
  }
}
