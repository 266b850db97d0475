/**
 * What the Vulkan driver reports to the renderer, as plain values.
 *
 * Every Vulkan query the renderer makes (`vkEnumeratePhysicalDevices`,
 * `vkGetPhysicalDeviceProperties`, `vkGetPhysicalDeviceFeatures`,
 * `vkGetPhysicalDeviceQueueFamilyProperties`, `vkGetPhysicalDeviceSurfaceSupportKHR`,
 * `vkEnumerateDeviceExtensionProperties`, `vkEnumerateInstanceLayerProperties`)
 * is an input here rather than a call.
 */
module Vulkan {
  import opened CTypes

  /** `VkPhysicalDeviceType`. */
  datatype PhysicalDeviceType = Other | IntegratedGpu | DiscreteGpu | VirtualGpu | Cpu

  /** `VkPhysicalDeviceFeatures`, reduced to the one feature bit the renderer reads. */
  datatype PhysicalDeviceFeatures = PhysicalDeviceFeatures(geometryShader: bool)

  /**
   * One queue family: whether its `queueFlags` hold `VK_QUEUE_GRAPHICS_BIT`, and whether
   * `vkGetPhysicalDeviceSurfaceSupportKHR` reports that it can present to the renderer's surface.
   */
  datatype QueueFamily = QueueFamily(hasGraphicsBit: bool, presentSupported: bool)

  /**
   * The queue families of a device, indexed from 0. Their number is reported in a `uint32_t`;
   * it is kept below `UINT32_MAX` so that no family index can equal the sentinel.
   */
  type QueueFamilyList = s: seq<QueueFamily> | |s| < UINT32_MAX as int witness []

  /** A physical device as the driver describes it. */
  datatype PhysicalDevice = PhysicalDevice(
    deviceType: PhysicalDeviceType,
    features: PhysicalDeviceFeatures,
    queueFamilies: QueueFamilyList,
    extensions: seq<string>)
}
