/**
 * The stateful part of the Vulkan renderer: the `VKRenderer` object, the steps of its
 * initialisation (instance, surface, physical device, logical device, swapchain) and its
 * teardown, together with the queue create-info list it hands to `vkCreateDevice`.
 *
 * Vulkan and GLFW calls that create or destroy objects are not modelled; their outcomes are
 * inputs (a `Platform`), and the renderer's handles are modelled by whether they were created.
 */
module Renderer {
  import opened CTypes
  import opened Vulkan
  import opened Utils
  import opened DeviceSelection

  // ---------------------------------------------------------------------------
  // Logical device creation info
  // ---------------------------------------------------------------------------

  /** `VkDeviceQueueCreateInfo`: the family to open queues on and how many queues. */
  datatype DeviceQueueCreateInfo = DeviceQueueCreateInfo(queueFamilyIndex: uint32, queueCount: uint32)

  /**
   * `VkDeviceCreateInfo` as the renderer fills it in. `enabledLayerNames` stands for the pair
   * `enabledLayerCount`/`ppEnabledLayerNames`.
   */
  datatype DeviceCreateInfo = DeviceCreateInfo(
    enabledFeatures: Option<PhysicalDeviceFeatures>,
    queueCreateInfos: seq<DeviceQueueCreateInfo>,
    queueCreateInfoCount: nat,
    enabledLayerNames: seq<string>)

  /**
   * No queue family is requested twice. The Vulkan specification requires this of the
   * `pQueueCreateInfos` array given to `vkCreateDevice`.
   */
  predicate UniqueQueueFamilies(infos: seq<DeviceQueueCreateInfo>)
  {
    forall i, j :: 0 <= i < j < |infos| ==> infos[i].queueFamilyIndex != infos[j].queueFamilyIndex
  }

  /**
   * The queue create-info list of `VKRenderer::CreateLogicalDevice`: one create-info with one
   * queue for the present family and then one for the graphics family, even when the two
   * indices are equal. It names no family twice exactly when the two indices differ.
   */
  function QueueCreateInfosOf(supportedQueues: DeviceSupportedQueues): (infos: seq<DeviceQueueCreateInfo>)
    ensures |infos| == 2 && forall k :: 0 <= k < |infos| ==> infos[k].queueCount == 1
    ensures UniqueQueueFamilies(infos) <==> supportedQueues.presentFamily != supportedQueues.graphicsFamily
  {
    var infos := [DeviceQueueCreateInfo(supportedQueues.presentFamily, 1),
                  DeviceQueueCreateInfo(supportedQueues.graphicsFamily, 1)];
    assert infos[0].queueFamilyIndex == supportedQueues.presentFamily;
    assert infos[1].queueFamilyIndex == supportedQueues.graphicsFamily;
    infos
  }

  /**
   * The loop of `VKRenderer::CreateLogicalDevice` building the queue create-infos: the two
   * indices go through a vector of `int32_t` and come back unchanged.
   */
  method QueueCreateInfos(supportedQueues: DeviceSupportedQueues) returns (infos: seq<DeviceQueueCreateInfo>)
    ensures infos == QueueCreateInfosOf(supportedQueues)
  {
    var queuesIdx: seq<int32> := [];
    queuesIdx := queuesIdx + [ToInt32(supportedQueues.presentFamily)];
    queuesIdx := queuesIdx + [ToInt32(supportedQueues.graphicsFamily)];

    infos := [];
    for i := 0 to |queuesIdx|
      invariant |infos| == i
      invariant forall k :: 0 <= k < i ==> infos[k] == DeviceQueueCreateInfo(ToUint32(queuesIdx[k]), 1)
    {
      var queue := queuesIdx[i];
      var deviceQueueCreateInfo := DeviceQueueCreateInfo(ToUint32(queue), 1);
      infos := infos + [deviceQueueCreateInfo];
    }
    Int32RoundTrip(supportedQueues.presentFamily);
    Int32RoundTrip(supportedQueues.graphicsFamily);
  }

  /**
   * A device with a single family that both draws and presents, the most common layout,
   * gets the same index for both kinds, so the as-written list requests family 0 twice.
   */
  lemma SingleFamilyDeviceRequestsFamilyTwice()
    ensures var infos := QueueCreateInfosOf(SupportedQueuesOf([QueueFamily(true, true)]));
      infos == [DeviceQueueCreateInfo(0, 1), DeviceQueueCreateInfo(0, 1)] && !UniqueQueueFamilies(infos)
  {
    var families: QueueFamilyList := [QueueFamily(true, true)];
    assert QueuesAfter(families, 1) == DeviceSupportedQueues(0, 0);
    assert ScanEnd(families, 0) == 1;
  }

  /** The queue create-info list with each family requested once, as the Vulkan specification requires. */
  method QueueCreateInfosCorrected(supportedQueues: DeviceSupportedQueues)
    returns (infos: seq<DeviceQueueCreateInfo>)
    ensures UniqueQueueFamilies(infos)
    ensures forall k :: 0 <= k < |infos| ==> infos[k].queueCount == 1
    ensures forall k :: 0 <= k < |infos| ==>
      infos[k].queueFamilyIndex == supportedQueues.presentFamily ||
      infos[k].queueFamilyIndex == supportedQueues.graphicsFamily
    ensures exists k :: 0 <= k < |infos| && infos[k].queueFamilyIndex == supportedQueues.presentFamily
    ensures exists k :: 0 <= k < |infos| && infos[k].queueFamilyIndex == supportedQueues.graphicsFamily
  {
    var present, graphics := supportedQueues.presentFamily, supportedQueues.graphicsFamily;
    var uniqueFamilies := if present == graphics then [present] else [present, graphics];
    infos := [];
    for i := 0 to |uniqueFamilies|
      invariant |infos| == i
      invariant forall k :: 0 <= k < i ==> infos[k] == DeviceQueueCreateInfo(uniqueFamilies[k], 1)
    {
      infos := infos + [DeviceQueueCreateInfo(uniqueFamilies[i], 1)];
    }
    assert infos[0].queueFamilyIndex == present;
    assert infos[|infos| - 1].queueFamilyIndex == graphics;
  }

  /**
   * The `VkDeviceCreateInfo` that `VKRenderer::CreateLogicalDevice` hands to `vkCreateDevice`
   * for the chosen device: its features, the queue create-infos with their count, and the
   * validation layers when the program is built with `_DEBUG`.
   */
  function DeviceCreateInfoOf(physicalDevice: PhysicalDeviceDescription, debugBuild: bool, validationLayers: seq<string>): DeviceCreateInfo
  {
    var queueCreateInfos := QueueCreateInfosOf(physicalDevice.supportedQueues);
    DeviceCreateInfo(physicalDevice.deviceFeatures, queueCreateInfos, |queueCreateInfos|,
                     if debugBuild then validationLayers else [])
  }

  /** Fills in the `VkDeviceCreateInfo` of `VKRenderer::CreateLogicalDevice` field by field. */
  method BuildDeviceCreateInfo(physicalDevice: PhysicalDeviceDescription, debugBuild: bool, validationLayers: seq<string>)
    returns (info: DeviceCreateInfo)
    ensures info == DeviceCreateInfoOf(physicalDevice, debugBuild, validationLayers)
    ensures info.queueCreateInfoCount == |info.queueCreateInfos| == 2
    ensures info.enabledFeatures == physicalDevice.deviceFeatures
    ensures info.enabledLayerNames == if debugBuild then validationLayers else []
  {
    var deviceQueueCreateInfos := QueueCreateInfos(physicalDevice.supportedQueues);
    info := DeviceCreateInfo(physicalDevice.deviceFeatures, deviceQueueCreateInfos, |deviceQueueCreateInfos|, []);
    if debugBuild {
      info := info.(enabledLayerNames := validationLayers);
    }
  }

  /**
   * When some device qualifies, the logical device is requested on families of the chosen
   * device: the present family first and the graphics family second, each with the
   * capability it stands for.
   */
  lemma ChosenDeviceRequestsCapableFamilies(devices: seq<PhysicalDevice>, debugBuild: bool, validationLayers: seq<string>)
    requires exists k :: 0 <= k < |devices| && Qualifies(devices[k])
    ensures var d := BestDevice(devices);
      var infos := DeviceCreateInfoOf(d, debugBuild, validationLayers).queueCreateInfos;
      d.physicalDevice.Some? && d.physicalDevice.value < |devices| &&
      var families := devices[d.physicalDevice.value].queueFamilies;
      |infos| == 2 &&
      infos[0].queueFamilyIndex as int < |families| && families[infos[0].queueFamilyIndex].presentSupported &&
      infos[1].queueFamilyIndex as int < |families| && families[infos[1].queueFamilyIndex].hasGraphicsBit
  {
    BestDeviceIsFirstQualifying(devices);
    BestDeviceQueuesValid(devices);
  }

  /**
   * When no enumerated device qualifies, the default description is kept, and the logical
   * device is requested with the sentinel `UINT32_MAX` as both queue families.
   */
  lemma NoQualifyingDeviceRequestsSentinel(devices: seq<PhysicalDevice>, debugBuild: bool, validationLayers: seq<string>)
    requires forall k :: 0 <= k < |devices| ==> !Qualifies(devices[k])
    ensures DeviceCreateInfoOf(BestDevice(devices), debugBuild, validationLayers).queueCreateInfos ==
      [DeviceQueueCreateInfo(UINT32_MAX, 1), DeviceQueueCreateInfo(UINT32_MAX, 1)]
  {
    BestDeviceIsFirstQualifying(devices);
  }

  // ---------------------------------------------------------------------------
  // The renderer object
  // ---------------------------------------------------------------------------

  /** The outcome of every Vulkan and GLFW call `Init` makes, and what the driver reports. */
  datatype Platform = Platform(
    instanceLayers: seq<string>,        // vkEnumerateInstanceLayerProperties
    instanceCreationSucceeds: bool,     // vkCreateInstance(...) == VK_SUCCESS
    surfaceCreationSucceeds: bool,      // glfwCreateWindowSurface(...) == VK_SUCCESS
    physicalDevices: seq<PhysicalDevice>, // vkEnumeratePhysicalDevices
    deviceCreationSucceeds: bool)       // vkCreateDevice(...) == VK_SUCCESS

  /** A `vkDestroy*` call made by `Release`. */
  datatype DestroyCall = DestroyDevice | DestroySurface | DestroyInstance

  class VKRenderer {
    /** Whether the program is built with `_DEBUG`. */
    const debugBuild: bool
    /** `mRequiredExtensions`. */
    const requiredExtensions: set<string>
    /** `mValidationLayers`. */
    const validationLayers: seq<string>

    /** `mVKInstance` holds a created instance. */
    var instanceCreated: bool
    /** `mRenderingSurface` holds a created surface. */
    var surfaceCreated: bool
    /** `mPhysicalDevice`. */
    var physicalDevice: PhysicalDeviceDescription
    /** `mLogicalDevice` holds a created device. */
    var logicalDeviceCreated: bool
    /** The create-info last handed to `vkCreateDevice`, if any. */
    ghost var deviceRequest: Option<DeviceCreateInfo>

    constructor (debugBuild: bool, requiredExtensions: set<string>, validationLayers: seq<string>)
      ensures this.debugBuild == debugBuild
      ensures this.requiredExtensions == requiredExtensions
      ensures this.validationLayers == validationLayers
      ensures !instanceCreated && !surfaceCreated && !logicalDeviceCreated
      ensures physicalDevice == UnsetDescription()
      ensures deviceRequest.None?
    {
      this.debugBuild := debugBuild;
      this.requiredExtensions := requiredExtensions;
      this.validationLayers := validationLayers;
      instanceCreated := false;
      surfaceCreated := false;
      physicalDevice := UnsetDescription();
      logicalDeviceCreated := false;
      deviceRequest := None;
    }

    /**
     * `VKRenderer::CreateVKInstance`. In a `_DEBUG` build, a failed layer check returns
     * `false` before the instance is created.
     */
    method CreateVKInstance(platform: Platform) returns (ok: bool)
      modifies this`instanceCreated
      ensures debugBuild && !LayersFoundAsWritten(validationLayers, platform.instanceLayers) ==>
        !ok && instanceCreated == old(instanceCreated)
      ensures !debugBuild || LayersFoundAsWritten(validationLayers, platform.instanceLayers) ==>
        ok == platform.instanceCreationSucceeds && instanceCreated == ok
    {
      if debugBuild {
        var canEnable := CanEnableValidationLayers(validationLayers, platform.instanceLayers);
        if !canEnable {
          return false;
        }
      }
      ok := platform.instanceCreationSucceeds;
      instanceCreated := ok;
    }

    /**
     * `VKRenderer::PickPhysicalDevice`: fails only when no device is enumerated; otherwise
     * stores the result of `GetBestDevice` and succeeds, even when no device qualified.
     */
    method PickPhysicalDevice(devices: seq<PhysicalDevice>) returns (ok: bool)
      modifies this`physicalDevice
      ensures ok <==> |devices| > 0
      ensures physicalDevice == if ok then BestDevice(devices) else old(physicalDevice)
    {
      var deviceCount := |devices|;
      if deviceCount == 0 {
        return false;
      }
      physicalDevice := GetBestDevice(requiredExtensions, devices);
      return true;
    }

    /**
     * `VKRenderer::CreateLogicalDevice`: fills in the create-info from the chosen device and
     * hands it to `vkCreateDevice`, whose outcome is `deviceCreationSucceeds`.
     */
    method CreateLogicalDevice(deviceCreationSucceeds: bool) returns (ok: bool)
      modifies this`logicalDeviceCreated, this`deviceRequest
      ensures deviceRequest == Some(DeviceCreateInfoOf(physicalDevice, debugBuild, validationLayers))
      ensures ok == deviceCreationSucceeds && logicalDeviceCreated == ok
    {
      var deviceCreateInfo := BuildDeviceCreateInfo(physicalDevice, debugBuild, validationLayers);
      deviceRequest := Some(deviceCreateInfo);
      ok := deviceCreationSucceeds;
      logicalDeviceCreated := ok;
    }

    /** `VKRenderer::CreateSwapChain`: a stub whose result is always `false`. */
    method CreateSwapChain() returns (ok: bool)
      ensures !ok
    {
      ok := false;
    }

    /**
     * `VKRenderer::Init`: runs every step whatever the earlier ones returned and combines
     * their results with `&=`. Because the swapchain step always fails, so does `Init`.
     */
    method Init(platform: Platform) returns (result: bool)
      modifies this`instanceCreated, this`surfaceCreated, this`physicalDevice, this`logicalDeviceCreated,
        this`deviceRequest
      ensures !result
      ensures instanceCreated ==
        if debugBuild && !LayersFoundAsWritten(validationLayers, platform.instanceLayers)
        then old(instanceCreated) else platform.instanceCreationSucceeds
      ensures surfaceCreated == platform.surfaceCreationSucceeds
      ensures physicalDevice ==
        if |platform.physicalDevices| > 0 then BestDevice(platform.physicalDevices) else old(physicalDevice)
      ensures logicalDeviceCreated == platform.deviceCreationSucceeds
      ensures deviceRequest == Some(DeviceCreateInfoOf(physicalDevice, debugBuild, validationLayers))
    {
      result := CreateVKInstance(platform);

      surfaceCreated := platform.surfaceCreationSucceeds;
      result := result && surfaceCreated;

      var picked := PickPhysicalDevice(platform.physicalDevices);
      result := result && picked;

      var deviceCreated := CreateLogicalDevice(platform.deviceCreationSucceeds);
      result := result && deviceCreated;

      var swapChainCreated := CreateSwapChain();
      result := result && swapChainCreated;
    }

    /** `VKRenderer::Release`: destroys the device, then the surface, and the instance last. */
    method Release() returns (calls: seq<DestroyCall>)
      modifies this`instanceCreated, this`surfaceCreated, this`logicalDeviceCreated
      ensures calls == [DestroyDevice, DestroySurface, DestroyInstance]
      ensures !instanceCreated && !surfaceCreated && !logicalDeviceCreated
    {
      calls := [];
      logicalDeviceCreated := false;
      calls := calls + [DestroyDevice];
      surfaceCreated := false;
      calls := calls + [DestroySurface];
      instanceCreated := false;
      calls := calls + [DestroyInstance];
    }
  }
}
