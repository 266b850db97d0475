/**
 * The read-only part of the Vulkan renderer: checking validation layers and device
 * extensions, deciding whether a physical device is usable, finding its graphics and
 * presentation queue families, and picking the first usable device.
 *
 * Each member is a `method` following the C++ loops step by step and is proved against a
 * specification function; the lemmas below state what those functions promise.
 */
module DeviceSelection {
  import opened CTypes
  import opened Vulkan
  import opened Utils

  // ---------------------------------------------------------------------------
  // Validation layers
  // ---------------------------------------------------------------------------

  /**
   * The layer check as the renderer performs it: `strcmp`'s result is used as "found",
   * so a required layer counts as found when some reported layer has a DIFFERENT name.
   */
  predicate LayersFoundAsWritten(required: seq<string>, reported: seq<string>)
  {
    forall i :: 0 <= i < |required| ==> MarkedFound(required[i], reported)
  }

  /** What the inner loop of the layer check concludes: some reported name differs from `layer`. */
  predicate MarkedFound(layer: string, reported: seq<string>)
  {
    exists j :: 0 <= j < |reported| && reported[j] != layer
  }

  /** Every required layer is among the reported ones. */
  predicate LayersAvailable(required: seq<string>, reported: seq<string>)
  {
    forall i :: 0 <= i < |required| ==> required[i] in reported
  }

  /**
   * `VKRenderer::CanEnableValidationLayers`, with the layer names reported by
   * `vkEnumerateInstanceLayerProperties` given as `layerProperties`.
   */
  method CanEnableValidationLayers(validationLayers: seq<string>, layerProperties: seq<string>)
    returns (ok: bool)
    ensures ok <==> LayersFoundAsWritten(validationLayers, layerProperties)
  {
    var i := 0;
    while i < |validationLayers|
      invariant 0 <= i <= |validationLayers|
      invariant forall k :: 0 <= k < i ==> MarkedFound(validationLayers[k], layerProperties)
    {
      var layer := validationLayers[i];
      var isFound := false;
      ghost var differing := 0;
      for j := 0 to |layerProperties|
        invariant !isFound
        invariant forall m :: 0 <= m < j ==> layerProperties[m] == layer
      {
        // strcmp is nonzero exactly when the two names differ
        isFound := layerProperties[j] != layer;
        if isFound {
          differing := j;
          break;
        }
      }
      if !isFound {
        return false;
      }
      assert 0 <= differing < |layerProperties| && layerProperties[differing] != validationLayers[i];
      i := i + 1;
    }
    return true;
  }

  /**
   * The layer check as written accepts a request exactly when the request is empty, or the
   * driver reports two different names, or it reports names none of which is requested.
   */
  lemma {:induction false} LayersFoundAsWrittenCharacterized(required: seq<string>, reported: seq<string>)
    ensures LayersFoundAsWritten(required, reported) <==>
      |required| == 0 ||
      (exists j, k :: 0 <= j < |reported| && 0 <= k < |reported| && reported[j] != reported[k]) ||
      (|reported| > 0 && forall i :: 0 <= i < |required| ==> required[i] != reported[0])
  {
    var twoNames := exists j, k :: 0 <= j < |reported| && 0 <= k < |reported| && reported[j] != reported[k];
    if LayersFoundAsWritten(required, reported) && |required| > 0 && !twoNames {
      assert MarkedFound(required[0], reported);
      forall i | 0 <= i < |required| ensures required[i] != reported[0] {
        assert MarkedFound(required[i], reported);
        var j :| 0 <= j < |reported| && reported[j] != required[i];
        assert reported[j] == reported[0];
      }
    }
    if twoNames {
      var j, k :| 0 <= j < |reported| && 0 <= k < |reported| && reported[j] != reported[k];
      forall i | 0 <= i < |required|
        ensures MarkedFound(required[i], reported)
      {
        if reported[j] == required[i] {
          assert reported[k] != required[i];
        }
      }
    }
    if |reported| > 0 && forall i :: 0 <= i < |required| ==> required[i] != reported[0] {
      forall i | 0 <= i < |required|
        ensures MarkedFound(required[i], reported)
      {
        assert reported[0] != required[i];
      }
    }
  }

  /** An empty request is always accepted; a non-empty one is refused when no layer is reported. */
  lemma LayerCheckEdgeCases(names: seq<string>)
    ensures LayersFoundAsWritten([], names)
    ensures |names| > 0 ==> !LayersFoundAsWritten(names, [])
  {
    if |names| > 0 {
      assert !MarkedFound(names[0], []);
    }
  }

  /**
   * The as-written layer check is inverted: a driver reporting exactly the requested layer is
   * refused, and one reporting only some other layer is accepted.
   */
  lemma LayerCheckInverted(layer: string, other: string)
    requires layer != other
    ensures LayersAvailable([layer], [layer])
    ensures !LayersFoundAsWritten([layer], [layer])
    ensures !LayersAvailable([layer], [other])
    ensures LayersFoundAsWritten([layer], [other])
  {
    var same, diff := [layer], [other];
    assert same[0] == layer && diff[0] == other;
    assert |same| == 1 && |diff| == 1;
    assert layer in same;
    assert layer !in diff;
  }

  /** The inversion for the Khronos validation layer against a driver offering only another layer. */
  lemma KhronosLayerCheckInverted()
    ensures !LayersFoundAsWritten(["VK_LAYER_KHRONOS_validation"], ["VK_LAYER_KHRONOS_validation"])
    ensures LayersFoundAsWritten(["VK_LAYER_KHRONOS_validation"], ["VK_LAYER_LUNARG_monitor"])
  {
    var khronos: string, monitor: string := "VK_LAYER_KHRONOS_validation", "VK_LAYER_LUNARG_monitor";
    assert khronos[9] != monitor[9];
    LayerCheckInverted(khronos, monitor);
  }

  /** The layer check with `strcmp(...) == 0` as "found": every requested layer must be reported. */
  method CanEnableValidationLayersCorrected(validationLayers: seq<string>, layerProperties: seq<string>)
    returns (ok: bool)
    ensures ok <==> LayersAvailable(validationLayers, layerProperties)
  {
    for i := 0 to |validationLayers|
      invariant forall k :: 0 <= k < i ==> validationLayers[k] in layerProperties
    {
      var layer := validationLayers[i];
      var isFound := false;
      for j := 0 to |layerProperties|
        invariant !isFound
        invariant forall m :: 0 <= m < j ==> layerProperties[m] != layer
      {
        isFound := layerProperties[j] == layer;
        if isFound {
          break;
        }
      }
      if !isFound {
        return false;
      }
    }
    return true;
  }

  // ---------------------------------------------------------------------------
  // Device extensions
  // ---------------------------------------------------------------------------

  /** Every required extension name is among the reported ones. */
  predicate ExtensionsAvailable(required: set<string>, reported: seq<string>)
  {
    forall e :: e in required ==> e in reported
  }

  /**
   * The loop of `CheckDeviceExtentions`: erases every listed name from a copy of the
   * required set. It only ever removes names.
   */
  method EraseListed(required: set<string>, listed: seq<string>) returns (remaining: set<string>)
    ensures remaining <= required
    ensures forall e :: e in remaining <==> e in required && e !in listed
  {
    remaining := required;
    for i := 0 to |listed|
      invariant forall e :: e in remaining <==> e in required && e !in listed[..i]
    {
      assert listed[..i + 1] == listed[..i] + [listed[i]];
      remaining := remaining - {listed[i]};
    }
    assert listed[..|listed|] == listed;
  }

  /**
   * The verdict of the extension check as written: the vector meant to receive the device's
   * extension names is never resized, so the driver writes none into it and the required
   * names are checked against an empty list, whatever `device` reports.
   */
  predicate ExtensionCheckAsWritten(required: set<string>, device: PhysicalDevice)
  {
    ExtensionsAvailable(required, [])
  }

  /**
   * `VKRenderer::CheckDeviceExtentions` as written. Nothing is erased from the copy of the
   * required set, so the check passes exactly when no extension is required.
   */
  method CheckDeviceExtensions(requiredExtensions: set<string>, device: PhysicalDevice) returns (ok: bool)
    ensures ok == ExtensionCheckAsWritten(requiredExtensions, device)
    ensures ok <==> requiredExtensions == {}
  {
    var deviceExtensions: seq<string> := [];
    var remaining := EraseListed(requiredExtensions, deviceExtensions);
    ok := remaining == {};
    if !ok {
      var e :| e in remaining;
      assert e !in deviceExtensions;
    }
  }

  /**
   * A device reporting the one required extension `VK_KHR_swapchain` has it available, yet
   * the as-written extension check refuses it.
   */
  lemma ExtensionCheckRejectsCapableDevice()
    ensures var device := PhysicalDevice(DiscreteGpu, PhysicalDeviceFeatures(true), [], ["VK_KHR_swapchain"]);
      ExtensionsAvailable({"VK_KHR_swapchain"}, device.extensions) &&
      !ExtensionCheckAsWritten({"VK_KHR_swapchain"}, device)
  {
    var swapchain: string := "VK_KHR_swapchain";
    assert swapchain in {swapchain};
    assert swapchain !in [];
  }

  /** The extension check over the names the device actually reports. */
  method CheckDeviceExtensionsCorrected(requiredExtensions: set<string>, device: PhysicalDevice)
    returns (ok: bool)
    ensures ok <==> ExtensionsAvailable(requiredExtensions, device.extensions)
  {
    var remaining := EraseListed(requiredExtensions, device.extensions);
    ok := remaining == {};
  }

  // ---------------------------------------------------------------------------
  // Device features
  // ---------------------------------------------------------------------------

  /** A discrete GPU that supports geometry shaders. */
  predicate IsSupported(device: PhysicalDevice)
  {
    device.deviceType == DiscreteGpu && device.features.geometryShader
  }

  /**
   * `VKRenderer::DeviceIsSupported`: the extension check is run but its result is dropped,
   * so the answer depends only on the device type and the geometry-shader feature.
   */
  method DeviceIsSupported(requiredExtensions: set<string>, device: PhysicalDevice) returns (supported: bool)
    ensures supported <==> IsSupported(device)
  {
    var extensionsSupported := CheckDeviceExtensions(requiredExtensions, device);
    supported := device.deviceType == DiscreteGpu && device.features.geometryShader;
  }

  /** A device lacking a required extension passes the as-written support test. */
  lemma DeviceWithoutRequiredExtensionAccepted()
    ensures IsSupported(PhysicalDevice(DiscreteGpu, PhysicalDeviceFeatures(true), [], []))
    ensures !ExtensionsAvailable({"VK_KHR_swapchain"}, [])
  {
    assert "VK_KHR_swapchain" in {"VK_KHR_swapchain"};
  }

  /** The support test that also demands the required extensions. */
  method DeviceIsSupportedCorrected(requiredExtensions: set<string>, device: PhysicalDevice)
    returns (supported: bool)
    ensures supported <==> IsSupported(device) && ExtensionsAvailable(requiredExtensions, device.extensions)
  {
    var extensionsSupported := CheckDeviceExtensionsCorrected(requiredExtensions, device);
    supported := device.deviceType == DiscreteGpu && device.features.geometryShader && extensionsSupported;
  }

  // ---------------------------------------------------------------------------
  // Queue families
  // ---------------------------------------------------------------------------

  datatype QueueKind = Graphics | Present

  predicate Supports(family: QueueFamily, kind: QueueKind)
  {
    match kind
    case Graphics => family.hasGraphicsBit
    case Present => family.presentSupported
  }

  /** The index of the last family below `k` that supports `kind`, or `UINT32_MAX` if none does. */
  function LastSupporting(families: QueueFamilyList, kind: QueueKind, k: nat): (r: uint32)
    requires k <= |families|
    ensures r != UINT32_MAX ==> r as int < k && Supports(families[r], kind)
    ensures r != UINT32_MAX ==> forall j :: r as int < j < k ==> !Supports(families[j], kind)
    ensures r == UINT32_MAX ==> forall j :: 0 <= j < k ==> !Supports(families[j], kind)
    decreases k
  {
    if k == 0 then UINT32_MAX
    else if Supports(families[k - 1], kind) then (k - 1) as uint32
    else LastSupporting(families, kind, k - 1)
  }

  /** The queue record after the scan has looked at the first `k` families. */
  function QueuesAfter(families: QueueFamilyList, k: nat): DeviceSupportedQueues
    requires k <= |families|
  {
    DeviceSupportedQueues(LastSupporting(families, Graphics, k), LastSupporting(families, Present, k))
  }

  /**
   * How many families the scan looks at when it has already looked at `k`: it stops right
   * after the first family that makes the record complete, or at the end of the list.
   */
  function ScanEnd(families: QueueFamilyList, k: nat): (e: nat)
    requires k <= |families|
    ensures k <= e <= |families|
    ensures k < |families| ==> k < e
    ensures forall m :: k < m < e ==> !QueuesAfter(families, m).IsComplete()
    ensures e == |families| || QueuesAfter(families, e).IsComplete()
    decreases |families| - k
  {
    if k == |families| then k
    else if QueuesAfter(families, k + 1).IsComplete() then k + 1
    else ScanEnd(families, k + 1)
  }

  /** The record `GetDeviceSupportedQueues` returns for a device with these queue families. */
  function SupportedQueuesOf(families: QueueFamilyList): DeviceSupportedQueues
  {
    QueuesAfter(families, ScanEnd(families, 0))
  }

  /**
   * `VKRenderer::GetDeviceSupportedQueues`: scans the families in index order, overwriting
   * the graphics (resp. present) index with every family that has the capability, and
   * returns as soon as both are set.
   */
  method GetDeviceSupportedQueues(device: PhysicalDevice) returns (result: DeviceSupportedQueues)
    ensures result == SupportedQueuesOf(device.queueFamilies)
  {
    result := DefaultSupportedQueues();
    var queueFamilies := device.queueFamilies;
    var i: uint32 := 0;
    while i as int < |queueFamilies|
      invariant i as int <= |queueFamilies|
      invariant result == QueuesAfter(queueFamilies, i as int)
      invariant ScanEnd(queueFamilies, i as int) == ScanEnd(queueFamilies, 0)
    {
      var queues := queueFamilies[i];
      if queues.hasGraphicsBit {
        result := result.(graphicsFamily := i);
      }
      var presentSupport := queues.presentSupported;
      if presentSupport {
        result := result.(presentFamily := i);
      }
      if result.IsComplete() {
        return;
      }
      i := i + 1;
    }
  }

  /** A real index in the result names an existing family that has the capability it stands for. */
  lemma SupportedQueuesSound(families: QueueFamilyList)
    ensures var r := SupportedQueuesOf(families);
      (r.graphicsFamily != UINT32_MAX ==>
        r.graphicsFamily as int < |families| && families[r.graphicsFamily].hasGraphicsBit) &&
      (r.presentFamily != UINT32_MAX ==>
        r.presentFamily as int < |families| && families[r.presentFamily].presentSupported)
  {
  }

  /** The result is complete exactly when some family has graphics and some family can present. */
  lemma SupportedQueuesCompleteIff(families: QueueFamilyList)
    ensures SupportedQueuesOf(families).IsComplete() <==>
      (exists i :: 0 <= i < |families| && families[i].hasGraphicsBit) &&
      (exists j :: 0 <= j < |families| && families[j].presentSupported)
  {
    var r := SupportedQueuesOf(families);
    if r.IsComplete() {
      SupportedQueuesSound(families);
      assert families[r.graphicsFamily].hasGraphicsBit;
      assert families[r.presentFamily].presentSupported;
    }
    if (exists i :: 0 <= i < |families| && families[i].hasGraphicsBit) &&
       (exists j :: 0 <= j < |families| && families[j].presentSupported)
    {
      var i :| 0 <= i < |families| && families[i].hasGraphicsBit;
      var j :| 0 <= j < |families| && families[j].presentSupported;
      assert Supports(families[i], Graphics) && Supports(families[j], Present);
    }
  }

  /**
   * When the result is complete, the scan stopped at `k`, the larger of the two indices:
   * no pair of graphics and present families exists below `k`, and each index is the LAST
   * family up to `k` with its capability (not the first).
   */
  lemma {:induction false} ScanStopsAtFirstComplete(families: QueueFamilyList)
    requires SupportedQueuesOf(families).IsComplete()
    ensures var r := SupportedQueuesOf(families);
      var k := if r.graphicsFamily < r.presentFamily then r.presentFamily as int else r.graphicsFamily as int;
      k < |families| &&
      (forall j :: r.graphicsFamily as int < j <= k ==> !families[j].hasGraphicsBit) &&
      (forall j :: r.presentFamily as int < j <= k ==> !families[j].presentSupported) &&
      (forall a, b :: 0 <= a < k && 0 <= b < k ==> !(families[a].hasGraphicsBit && families[b].presentSupported))
  {
    var e := ScanEnd(families, 0);
    var r := SupportedQueuesOf(families);
    var g, p := r.graphicsFamily as int, r.presentFamily as int;
    var k := if g < p then p else g;
    assert g < e && p < e;
    var before := QueuesAfter(families, e - 1);
    assert !before.IsComplete();
    if before.graphicsFamily == UINT32_MAX {
      assert Supports(families[g], Graphics);
      assert g == e - 1;
    } else {
      assert before.presentFamily == UINT32_MAX;
      assert Supports(families[p], Present);
      assert p == e - 1;
    }
    assert k == e - 1;
    forall j | g < j <= k ensures !families[j].hasGraphicsBit {
      assert !Supports(families[j], Graphics);
    }
    forall j | p < j <= k ensures !families[j].presentSupported {
      assert !Supports(families[j], Present);
    }
    forall a, b | 0 <= a < k && 0 <= b < k && families[a].hasGraphicsBit
      ensures !families[b].presentSupported
    {
      assert Supports(families[a], Graphics);
      assert LastSupporting(families, Present, k) == UINT32_MAX;
      assert !Supports(families[b], Present);
    }
  }

  /** When the result is incomplete, every family was scanned and each index is the last one overall. */
  lemma IncompleteScanCoversAllFamilies(families: QueueFamilyList)
    requires !SupportedQueuesOf(families).IsComplete()
    ensures ScanEnd(families, 0) == |families|
    ensures SupportedQueuesOf(families) == QueuesAfter(families, |families|)
  {
  }

  // ---------------------------------------------------------------------------
  // Device choice
  // ---------------------------------------------------------------------------

  /** A device `GetBestDevice` would take: supported, with a complete queue record. */
  predicate Qualifies(device: PhysicalDevice)
  {
    IsSupported(device) && SupportedQueuesOf(device.queueFamilies).IsComplete()
  }

  /** The position of the first qualifying device at or after `k`, if any. */
  function FirstQualifyingFrom(devices: seq<PhysicalDevice>, k: nat): (r: Option<nat>)
    requires k <= |devices|
    ensures r.Some? ==> k <= r.value < |devices| && Qualifies(devices[r.value])
    ensures r.Some? ==> forall j :: k <= j < r.value ==> !Qualifies(devices[j])
    ensures r.None? ==> forall j :: k <= j < |devices| ==> !Qualifies(devices[j])
    decreases |devices| - k
  {
    if k == |devices| then None
    else if Qualifies(devices[k]) then Some(k)
    else FirstQualifyingFrom(devices, k + 1)
  }

  /** The description `GetBestDevice` returns for this enumeration. */
  function BestDevice(devices: seq<PhysicalDevice>): PhysicalDeviceDescription
  {
    match FirstQualifyingFrom(devices, 0)
    case None => UnsetDescription()
    case Some(k) =>
      PhysicalDeviceDescription(Some(k), Some(devices[k].features), SupportedQueuesOf(devices[k].queueFamilies))
  }

  /** `VKRenderer::GetBestDevice`: the first qualifying device in enumeration order. */
  method GetBestDevice(requiredExtensions: set<string>, devices: seq<PhysicalDevice>)
    returns (result: PhysicalDeviceDescription)
    ensures result == BestDevice(devices)
  {
    result := UnsetDescription();
    for i := 0 to |devices|
      invariant result == UnsetDescription()
      invariant forall j :: 0 <= j < i ==> !Qualifies(devices[j])
    {
      var device := devices[i];
      var supported := DeviceIsSupported(requiredExtensions, device);
      if supported {
        var supportedQueues := GetDeviceSupportedQueues(device);
        if supportedQueues.IsComplete() {
          var deviceFeatures := device.features;
          result := PhysicalDeviceDescription(Some(i), Some(deviceFeatures), supportedQueues);
          break;
        }
      }
    }
  }

  /**
   * The chosen device is the first qualifying one: a discrete GPU with geometry shaders and a
   * complete queue record, every earlier device fails; when none qualifies the description
   * stays default-constructed and its queue record incomplete.
   */
  lemma BestDeviceIsFirstQualifying(devices: seq<PhysicalDevice>)
    ensures var d := BestDevice(devices);
      (d.physicalDevice.Some? <==> exists k :: 0 <= k < |devices| && Qualifies(devices[k])) &&
      (d.physicalDevice.Some? ==>
        d.physicalDevice.value < |devices| &&
        IsSupported(devices[d.physicalDevice.value]) &&
        d.supportedQueues == SupportedQueuesOf(devices[d.physicalDevice.value].queueFamilies) &&
        d.supportedQueues.IsComplete() &&
        d.deviceFeatures == Some(devices[d.physicalDevice.value].features) &&
        forall j :: 0 <= j < d.physicalDevice.value ==> !Qualifies(devices[j])) &&
      (d.physicalDevice.None? ==> d == UnsetDescription() && !d.supportedQueues.IsComplete())
  {
  }

  /** The chosen queue indices exist on the chosen device and have the right capabilities. */
  lemma BestDeviceQueuesValid(devices: seq<PhysicalDevice>)
    ensures var d := BestDevice(devices);
      d.physicalDevice.Some? ==>
        var families := devices[d.physicalDevice.value].queueFamilies;
        d.supportedQueues.graphicsFamily as int < |families| &&
        families[d.supportedQueues.graphicsFamily].hasGraphicsBit &&
        d.supportedQueues.presentFamily as int < |families| &&
        families[d.supportedQueues.presentFamily].presentSupported
  {
    var d := BestDevice(devices);
    if d.physicalDevice.Some? {
      SupportedQueuesSound(devices[d.physicalDevice.value].queueFamilies);
    }
  }

  /** Once a device qualifies, devices enumerated after it never change the choice. */
  lemma LaterDevicesIgnored(devices: seq<PhysicalDevice>, more: seq<PhysicalDevice>)
    requires BestDevice(devices).physicalDevice.Some?
    ensures BestDevice(devices + more) == BestDevice(devices)
  {
    var k := FirstQualifyingFrom(devices, 0).value;
    var all := devices + more;
    assert all[k] == devices[k];
    assert forall j :: 0 <= j < k ==> all[j] == devices[j];
    var r := FirstQualifyingFrom(all, 0);
    assert r == Some(k);
  }
}
