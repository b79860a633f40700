/** Physical-device selection, queue-family lookup and logical-device set-up
    (foundation/device.rs).  The properties a physical device reports are given as values. */
module DeviceSelection {
  import opened Vk
  import opened AppState

  const QUEUE_GRAPHICS: Flags := 0x1
  const KHR_SWAPCHAIN_EXTENSION: string := "VK_KHR_swapchain"
  const KHR_PORTABILITY_SUBSET_EXTENSION: string := "VK_KHR_portability_subset"
  const VALIDATION_LAYER: string := "VK_LAYER_KHRONOS_validation"

  /** The device extensions the renderer needs. */
  const DEVICE_EXTENSIONS: seq<string> := [KHR_SWAPCHAIN_EXTENSION]

  /** One queue family: its capability flags and the answer of the surface-support query
      for the renderer's surface. */
  datatype QueueFamily = QueueFamily(queueFlags: Flags, surfaceSupport: bool)

  /** What the renderer queries about a physical device. */
  datatype PhysicalDevice = PhysicalDevice(
    handle: Handle,
    queueFamilies: seq<QueueFamily>,
    extensions: set<string>,
    formatCount: nat,
    presentModeCount: nat,
    samplerAnisotropy: bool)

  datatype QueueFamilyIndices = QueueFamilyIndices(graphics: nat, present: nat)

  /** The parts of the device create info that the renderer decides. */
  datatype DeviceCreateInfo = DeviceCreateInfo(
    queueFamilies: set<nat>,
    layers: seq<string>,
    extensions: seq<string>,
    samplerAnisotropy: bool)

  predicate IsGraphics(f: QueueFamily) {
    Contains(f.queueFlags, QUEUE_GRAPHICS)
  }

  /** `position` of the first family at or after `from` whose flags contain GRAPHICS. */
  function GraphicsFamily(families: seq<QueueFamily>, from: nat): (r: Option<nat>)
    requires from <= |families|
    decreases |families| - from
    ensures r.Some? ==> from <= r.value < |families| && IsGraphics(families[r.value])
    ensures r.Some? ==> forall j | from <= j < r.value :: !IsGraphics(families[j])
    ensures r.None? <==> forall j | from <= j < |families| :: !IsGraphics(families[j])
  {
    if from == |families| then None
    else if IsGraphics(families[from]) then Some(from)
    else GraphicsFamily(families, from + 1)
  }

  /** The first family index whose surface-support query answers true (a `for` loop that
      breaks at the first hit). */
  method PresentFamily(families: seq<QueueFamily>) returns (present: Option<nat>)
    ensures present.Some? ==> present.value < |families| && families[present.value].surfaceSupport
    ensures present.Some? ==> forall j | 0 <= j < present.value :: !families[j].surfaceSupport
    ensures present.None? <==> forall j | 0 <= j < |families| :: !families[j].surfaceSupport
  {
    present := None;
    var index := 0;
    while index < |families|
      invariant 0 <= index <= |families| && present.None?
      invariant forall j | 0 <= j < index :: !families[j].surfaceSupport
    {
      if families[index].surfaceSupport {
        present := Some(index);
        return;
      }
      index := index + 1;
    }
  }

  predicate HasGraphicsFamily(d: PhysicalDevice) {
    exists j | 0 <= j < |d.queueFamilies| :: IsGraphics(d.queueFamilies[j])
  }

  predicate HasPresentFamily(d: PhysicalDevice) {
    exists j | 0 <= j < |d.queueFamilies| :: d.queueFamilies[j].surfaceSupport
  }

  /** `QueueFamilyIndices::get`: both families, or an error when either is missing. */
  method GetQueueFamilyIndices(d: PhysicalDevice) returns (r: Result<QueueFamilyIndices>)
    ensures r.Ok? <==> HasGraphicsFamily(d) && HasPresentFamily(d)
    ensures r.Err? ==> r.error == MissingQueueFamilies
    ensures r.Ok? ==> Some(r.value.graphics) == GraphicsFamily(d.queueFamilies, 0)
    ensures r.Ok? ==> r.value.present < |d.queueFamilies| && d.queueFamilies[r.value.present].surfaceSupport
    ensures r.Ok? ==> forall j | 0 <= j < r.value.present :: !d.queueFamilies[j].surfaceSupport
  {
    var graphics := GraphicsFamily(d.queueFamilies, 0);
    var present := PresentFamily(d.queueFamilies);
    if graphics.Some? && present.Some? {
      r := Ok(QueueFamilyIndices(graphics.value, present.value));
    } else {
      r := Err(MissingQueueFamilies);
    }
  }

  /** Whether every name of `required` is among `available`. */
  function AllAvailable(required: seq<string>, available: set<string>): (b: bool)
    ensures b <==> forall j | 0 <= j < |required| :: required[j] in available
  {
    if required == [] then true
    else required[0] in available && AllAvailable(required[1..], available)
  }

  function CheckDeviceExtensions(available: set<string>): (r: Outcome)
    ensures r == Pass <==> forall e | e in DEVICE_EXTENSIONS :: e in available
    ensures r.Fail? ==> r.error == MissingDeviceExtensions
  {
    if AllAvailable(DEVICE_EXTENSIONS, available) then Pass else Fail(MissingDeviceExtensions)
  }

  /** A device is suitable when it has both queue families, every required extension,
      at least one surface format and present mode, and sampler anisotropy. */
  predicate Suitable(d: PhysicalDevice) {
    HasGraphicsFamily(d) && HasPresentFamily(d)
    && (forall e | e in DEVICE_EXTENSIONS :: e in d.extensions)
    && d.formatCount > 0 && d.presentModeCount > 0 && d.samplerAnisotropy
  }

  /** The suitability checks, each reported with its own error, in the order the source
      runs them. */
  method CheckPhysicalDevice(d: PhysicalDevice) returns (r: Outcome)
    ensures r == Pass <==> Suitable(d)
    ensures !(HasGraphicsFamily(d) && HasPresentFamily(d)) ==> r == Fail(MissingQueueFamilies)
    ensures (HasGraphicsFamily(d) && HasPresentFamily(d) && CheckDeviceExtensions(d.extensions).Fail?)
              ==> r == Fail(MissingDeviceExtensions)
    ensures (HasGraphicsFamily(d) && HasPresentFamily(d) && CheckDeviceExtensions(d.extensions) == Pass
             && (d.formatCount == 0 || d.presentModeCount == 0))
              ==> r == Fail(InsufficientSwapchainSupport)
    ensures (HasGraphicsFamily(d) && HasPresentFamily(d) && CheckDeviceExtensions(d.extensions) == Pass
             && d.formatCount > 0 && d.presentModeCount > 0 && !d.samplerAnisotropy)
              ==> r == Fail(NoSamplerAnisotropy)
  {
    var indices := GetQueueFamilyIndices(d);
    if indices.Err? {
      return Fail(indices.error);
    }
    r := CheckDeviceExtensions(d.extensions);
    if r.Fail? {
      return;
    }
    if d.formatCount == 0 || d.presentModeCount == 0 {
      return Fail(InsufficientSwapchainSupport);
    }
    if !d.samplerAnisotropy {
      return Fail(NoSamplerAnisotropy);
    }
    r := Pass;
  }

  /** Stores the first suitable device in enumeration order, or fails when none is. */
  method PickPhysicalDevice(devices: seq<PhysicalDevice>, data: AppData) returns (r: Outcome)
    modifies data`physicalDevice
    ensures r == Pass <==> exists k | 0 <= k < |devices| :: Suitable(devices[k])
    ensures r.Fail? ==> r.error == NoSuitablePhysicalDevice && data.physicalDevice == old(data.physicalDevice)
    ensures r == Pass ==> exists k | 0 <= k < |devices| ::
              Suitable(devices[k]) && data.physicalDevice == devices[k].handle
              && forall j | 0 <= j < k :: !Suitable(devices[j])
  {
    var k := 0;
    while k < |devices|
      invariant 0 <= k <= |devices|
      invariant forall j | 0 <= j < k :: !Suitable(devices[j])
      invariant data.physicalDevice == old(data.physicalDevice)
    {
      var check := CheckPhysicalDevice(devices[k]);
      if check == Pass {
        data.physicalDevice := devices[k].handle;
        return Pass;
      }
      k := k + 1;
    }
    r := Fail(NoSuitablePhysicalDevice);
  }

  /** The distinct queue families to create queues on (a hash set of the two indices). */
  function UniqueQueueFamilies(indices: QueueFamilyIndices): (r: set<nat>)
    ensures indices.graphics in r && indices.present in r
    ensures forall f | f in r :: f == indices.graphics || f == indices.present
    ensures |r| == if indices.graphics == indices.present then 1 else 2
  {
    var r := {indices.graphics};
    var r := r + {indices.present};
    assert indices.graphics != indices.present ==> r == {indices.graphics} + {indices.present};
    r
  }

  /** The device extensions enabled: the required ones, plus the portability subset on macOS
      when the loader is at least `portabilityMacosVersion`. */
  function EnabledExtensions(isMacOS: bool, loaderVersion: nat, portabilityMacosVersion: nat): (r: seq<string>)
    ensures DEVICE_EXTENSIONS <= r
    ensures KHR_PORTABILITY_SUBSET_EXTENSION in r <==> isMacOS && loaderVersion >= portabilityMacosVersion
    ensures |r| == |DEVICE_EXTENSIONS| + if isMacOS && loaderVersion >= portabilityMacosVersion then 1 else 0
  {
    if isMacOS && loaderVersion >= portabilityMacosVersion
    then DEVICE_EXTENSIONS + [KHR_PORTABILITY_SUBSET_EXTENSION]
    else DEVICE_EXTENSIONS
  }

  /** Assembles the logical-device create info for the selected device and records queue 0
      of the graphics and of the present family. */
  method CreateLogicalDevice(d: PhysicalDevice, data: AppData, validationEnabled: bool,
                             isMacOS: bool, loaderVersion: nat, portabilityMacosVersion: nat)
    returns (r: Result<DeviceCreateInfo>)
    modifies data`graphicsQueue, data`presentQueue
    ensures r.Ok? <==> HasGraphicsFamily(d) && HasPresentFamily(d)
    ensures r.Err? ==> (r.error == MissingQueueFamilies
      && data.graphicsQueue == old(data.graphicsQueue) && data.presentQueue == old(data.presentQueue))
    ensures r.Ok? ==>
      var g := data.graphicsQueue.family;
      var p := data.presentQueue.family;
      && data.graphicsQueue == Queue(g, 0) && data.presentQueue == Queue(p, 0)
      && GraphicsFamily(d.queueFamilies, 0) == Some(g)
      && p < |d.queueFamilies| && d.queueFamilies[p].surfaceSupport
      && (forall j | 0 <= j < p :: !d.queueFamilies[j].surfaceSupport)
      && r.value.queueFamilies == UniqueQueueFamilies(QueueFamilyIndices(g, p))
      && r.value.extensions == EnabledExtensions(isMacOS, loaderVersion, portabilityMacosVersion)
      && r.value.layers == (if validationEnabled then [VALIDATION_LAYER] else [])
      && r.value.samplerAnisotropy
  {
    var indices := GetQueueFamilyIndices(d);
    if indices.Err? {
      return Err(indices.error);
    }
    var unique := UniqueQueueFamilies(indices.value);
    var layers := if validationEnabled then [VALIDATION_LAYER] else [];
    var extensions := EnabledExtensions(isMacOS, loaderVersion, portabilityMacosVersion);
    r := Ok(DeviceCreateInfo(unique, layers, extensions, true));
    data.graphicsQueue := Queue(indices.value.graphics, 0);
    data.presentQueue := Queue(indices.value.present, 0);
  }
}
