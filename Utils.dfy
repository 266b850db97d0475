/** The renderer's helper records: the queue families found on a device and the chosen device. */
module Utils {
  import opened CTypes
  import opened Vulkan

  datatype Option<T> = None | Some(value: T)

  /** The graphics and presentation queue family indices of a device; `UINT32_MAX` means "not found". */
  datatype DeviceSupportedQueues = DeviceSupportedQueues(graphicsFamily: uint32, presentFamily: uint32)
  {
    /** Both kinds of queue family have been found. */
    predicate IsComplete()
    {
      graphicsFamily != UINT32_MAX && presentFamily != UINT32_MAX
    }
  }

  /** A default-constructed `DeviceSupportedQueues`: both fields hold the sentinel, so it is incomplete. */
  function DefaultSupportedQueues(): (q: DeviceSupportedQueues)
    ensures q.graphicsFamily == UINT32_MAX && q.presentFamily == UINT32_MAX
    ensures !q.IsComplete()
  {
    DeviceSupportedQueues(UINT32_MAX, UINT32_MAX)
  }

  /** `IsComplete` holds exactly when neither field is the sentinel. */
  lemma CompleteIffNoSentinel(q: DeviceSupportedQueues)
    ensures q.IsComplete() <==> q.graphicsFamily != UINT32_MAX && q.presentFamily != UINT32_MAX
  {
  }

  /** Once complete, overwriting either field with a real index keeps the record complete. */
  lemma CompleteStaysComplete(q: DeviceSupportedQueues, index: uint32)
    requires q.IsComplete() && index != UINT32_MAX
    ensures q.(graphicsFamily := index).IsComplete()
    ensures q.(presentFamily := index).IsComplete()
  {
  }

  /**
   * The device chosen by the renderer. The C++ members `physicalDevice` and `deviceFeatures`
   * are left uninitialised until a device is chosen; `None` stands for that state. The
   * device handle is modelled by its position in the driver's enumeration.
   */
  datatype PhysicalDeviceDescription = PhysicalDeviceDescription(
    physicalDevice: Option<nat>,
    deviceFeatures: Option<PhysicalDeviceFeatures>,
    supportedQueues: DeviceSupportedQueues)

  /** A default-constructed `PhysicalDeviceDescription`: nothing chosen, queues at the sentinel. */
  function UnsetDescription(): (d: PhysicalDeviceDescription)
    ensures d.physicalDevice.None? && d.deviceFeatures.None?
    ensures d.supportedQueues == DefaultSupportedQueues() && !d.supportedQueues.IsComplete()
  {
    PhysicalDeviceDescription(None, None, DefaultSupportedQueues())
  }
}
