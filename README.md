# Vulkan device selection — a Dafny model

This project models the device-selection core of a small Vulkan renderer (`VKRenderer`):

- checking that the requested validation layers are available;
- checking a physical device's extensions and features;
- scanning a device's queue families for a graphics family and a presentation family;
- picking the first usable device;
- building the queue create-info list for the logical device;
- the `Init` sequence that chains these steps and `Release`, which tears them down.

It also models the two records these steps fill in: `DeviceSupportedQueues`, with its `UINT32_MAX` sentinels and `isComplete`, and `PhysicalDeviceDescription`.

Every Vulkan query is an input value rather than a call:

- the device list is a sequence of `PhysicalDevice` records (device type, `geometryShader`, queue families, extension names);
- each queue family is a pair: whether it has `VK_QUEUE_GRAPHICS_BIT`, and whether it can present to the renderer's surface. The second flag stands for `vkGetPhysicalDeviceSurfaceSupportKHR`;
- instance layers are a sequence of names;
- the outcome of each creation call (`vkCreateInstance`, `glfwCreateWindowSurface`, `vkCreateDevice`) is a boolean in a `Platform` value.

Files and modules:

- `CTypes.dfy` — `uint32`, `int32`, `UINT32_MAX` and the conversions between the two integer types.
- `Vulkan.dfy` — the values the driver reports.
- `Utils.dfy` — the records of `Utils.h`.
- `DeviceSelection.dfy` — the renderer members that only read:
  - layer and extension checks;
  - `DeviceIsSupported`;
  - `GetDeviceSupportedQueues`;
  - `GetBestDevice`.

  Each one is a method with the source's loops, proved against a specification function. Lemmas state what those functions promise.
- `Renderer.dfy` — the `VKRenderer` class:
  - the steps that change its members (`CreateVKInstance`, `PickPhysicalDevice`, `CreateLogicalDevice`, `CreateSwapChain`);
  - `Init` and `Release`;
  - the create-info builder.

The model follows `VKRenderer.cpp` as written, including its quirks:

- the queue scan keeps the *last* capable index seen before it stops;
- the layer check treats a nonzero `strcmp` (the names *differ*) as "found";
- `DeviceIsSupported` computes the extension check and drops the result;
- the extension check never sizes its vector, so it sees no names;
- `CreateSwapChain` always returns `false`, so `Init` always returns `false`.

`VKRenderer.h` declares signatures that do not match the `.cpp`. For example, `GetBestDevice` returns a `VkPhysicalDevice` there, and `Init` takes no argument. The header also lacks `mRenderingSurface`, `mRequiredExtensions` and `mValidationLayers`. The model follows the `.cpp`. The required extensions and validation layers are constructor arguments, because their values are not defined in these files.

Three further facts about the code:

- The queue scan overwrites the graphics and presentation indices with every capable family, so it keeps the last ones seen before it stops, not the first (`ScanStopsAtFirstComplete`).
- The only device filters are the device type and `geometryShader`. Anisotropic sampling, surface formats and present modes are not tested, and the extension result is dropped (`DeviceIsSupported`).
- `Init` runs every step whatever the earlier ones returned and ANDs their results, so later steps still change the renderer's state after a failure (`Init`).

## Model

| member | source | states |
|---|---|---|
| `CTypes.ToInt32` | APIModernes_Vulkan/src/VKRenderer.cpp:195-198 | storing a `uint32_t` family index in the `int32_t` vector keeps values below 2^31 and makes larger ones negative |
| `CTypes.ToUint32` | APIModernes_Vulkan/src/VKRenderer.cpp:202-207 | reading an `int32_t` back into `queueFamilyIndex` keeps non-negative values and maps negative ones to 2^31 or above |
| `CTypes.Int32RoundTrip` | APIModernes_Vulkan/src/VKRenderer.cpp:195-207 | the detour of a family index through `int32_t` gives the original `uint32_t` back |
| `CTypes.SentinelAsInt32` | APIModernes_Vulkan/src/VKRenderer.cpp:195-198 | the sentinel `UINT32_MAX` is stored as -1 in the `int32_t` vector |
| `Utils.DefaultSupportedQueues` | APIModernes_Vulkan/src/Utils.h:26-34 | a default `DeviceSupportedQueues` holds `UINT32_MAX` in both fields and is not complete |
| `Utils.CompleteIffNoSentinel` | APIModernes_Vulkan/src/Utils.h:31-34 | `isComplete`, modelled by `Utils.DeviceSupportedQueues.IsComplete`, holds iff neither field is `UINT32_MAX` |
| `Utils.CompleteStaysComplete` | APIModernes_Vulkan/src/Utils.h:31-34 | a complete record stays complete when either field is overwritten with a non-sentinel index |
| `Utils.UnsetDescription` | APIModernes_Vulkan/src/Utils.h:37-43 | a default `PhysicalDeviceDescription` has no device and no features chosen, and an incomplete queue record at the sentinels |
| `DeviceSelection.CanEnableValidationLayers` | APIModernes_Vulkan/src/VKRenderer.cpp:57-81 | returns true iff, for every requested layer, some reported layer has a different name (strcmp's nonzero result used as "found") |
| `DeviceSelection.LayersFoundAsWrittenCharacterized` | APIModernes_Vulkan/src/VKRenderer.cpp:66-80 | the layer check accepts iff the request is empty, or two different names are reported, or names are reported and none of them is requested |
| `DeviceSelection.LayerCheckEdgeCases` | APIModernes_Vulkan/src/VKRenderer.cpp:66-80 | an empty request is accepted; a non-empty request is refused when no layer is reported |
| `DeviceSelection.LayerCheckInverted` | APIModernes_Vulkan/src/VKRenderer.cpp:71-72 | for two distinct names: the reported layer equal to the request is refused although available, and a different one is accepted although the request is unavailable |
| `DeviceSelection.KhronosLayerCheckInverted` | APIModernes_Vulkan/src/VKRenderer.cpp:71-72 | a driver that reports exactly `VK_LAYER_KHRONOS_validation` fails the check for it; one that reports only `VK_LAYER_LUNARG_monitor` passes it |
| `DeviceSelection.CanEnableValidationLayersCorrected` | APIModernes_Vulkan/src/VKRenderer.cpp:57-81 | with `strcmp == 0` as "found": returns true iff every requested layer is reported |
| `DeviceSelection.EraseListed` | APIModernes_Vulkan/src/VKRenderer.cpp:107-112 | erasing the listed names from a copy of the required set only removes names: the rest are exactly the required names not listed |
| `DeviceSelection.CheckDeviceExtensions` | APIModernes_Vulkan/src/VKRenderer.cpp:99-115 | the verdict is `ExtensionCheckAsWritten`, the required names checked against an empty list because the name vector is never sized: the check passes iff no extension is required, whatever the device reports |
| `DeviceSelection.ExtensionCheckRejectsCapableDevice` | APIModernes_Vulkan/src/VKRenderer.cpp:104-105 | a device reporting the one required extension `VK_KHR_swapchain` has it available, yet `ExtensionCheckAsWritten` refuses it |
| `DeviceSelection.CheckDeviceExtensionsCorrected` | APIModernes_Vulkan/src/VKRenderer.cpp:99-115 | over the names the device reports: passes iff every required extension is reported |
| `DeviceSelection.DeviceIsSupported` | APIModernes_Vulkan/src/VKRenderer.cpp:117-128 | true iff the device is a discrete GPU with geometry shaders; the required extensions and the extension check's result play no part |
| `DeviceSelection.DeviceWithoutRequiredExtensionAccepted` | APIModernes_Vulkan/src/VKRenderer.cpp:125-127 | a discrete GPU with geometry shaders and no extensions is supported although it lacks the required `VK_KHR_swapchain` |
| `DeviceSelection.DeviceIsSupportedCorrected` | APIModernes_Vulkan/src/VKRenderer.cpp:117-128 | with the extension result used: supported iff discrete GPU, geometry shaders and every required extension reported |
| `DeviceSelection.LastSupporting` | APIModernes_Vulkan/src/VKRenderer.cpp:143-150 | the index kept for a capability after k families is the last one below k that has it (every later one below k lacks it), or `UINT32_MAX` when none has it |
| `DeviceSelection.ScanEnd` | APIModernes_Vulkan/src/VKRenderer.cpp:152-157 | the scan stops right after the first family that makes the record complete, or at the end of the list; no earlier prefix is complete |
| `DeviceSelection.GetDeviceSupportedQueues` | APIModernes_Vulkan/src/VKRenderer.cpp:130-161 | the loop with its early return yields the record for the families scanned up to the first completion |
| `DeviceSelection.SupportedQueuesSound` | APIModernes_Vulkan/src/VKRenderer.cpp:140-158 | a non-sentinel graphics (present) index is below the family count and names a family with the graphics bit (present support) |
| `DeviceSelection.SupportedQueuesCompleteIff` | APIModernes_Vulkan/src/VKRenderer.cpp:141-160 | the result is complete iff some family has the graphics bit and some family can present |
| `DeviceSelection.ScanStopsAtFirstComplete` | APIModernes_Vulkan/src/VKRenderer.cpp:141-155 | when complete, with k the larger index: no graphics/present pair exists below k, and each index is the last family up to k with its capability |
| `DeviceSelection.IncompleteScanCoversAllFamilies` | APIModernes_Vulkan/src/VKRenderer.cpp:141-160 | when incomplete, every family was scanned and each field is the last capable index overall, or `UINT32_MAX` |
| `DeviceSelection.FirstQualifyingFrom` | APIModernes_Vulkan/src/VKRenderer.cpp:169-186 | finds the first device that is supported and has a complete queue record; all earlier ones fail; none found means none qualifies |
| `DeviceSelection.GetBestDevice` | APIModernes_Vulkan/src/VKRenderer.cpp:163-189 | the loop with `break` returns the description of the first qualifying device, or the default description |
| `DeviceSelection.BestDeviceIsFirstQualifying` | APIModernes_Vulkan/src/VKRenderer.cpp:163-189 | a device is chosen iff one qualifies; it is supported, its queue record is complete, its features are copied, and every earlier device fails; otherwise the description stays default and incomplete |
| `DeviceSelection.BestDeviceQueuesValid` | APIModernes_Vulkan/src/VKRenderer.cpp:173-181 | the chosen graphics and present indices exist on the chosen device and have the graphics bit and present support |
| `DeviceSelection.LaterDevicesIgnored` | APIModernes_Vulkan/src/VKRenderer.cpp:169-186 | once a device qualifies, devices enumerated after it do not change the result |
| `Renderer.QueueCreateInfosOf` | APIModernes_Vulkan/src/VKRenderer.cpp:193-212 | two create-infos with one queue each; no family is named twice iff the present and graphics indices differ |
| `Renderer.QueueCreateInfos` | APIModernes_Vulkan/src/VKRenderer.cpp:193-212 | the loop over the `int32_t` vector yields `QueueCreateInfosOf`: the present family first, then the graphics family, both unchanged by the detour |
| `Renderer.SingleFamilyDeviceRequestsFamilyTwice` | APIModernes_Vulkan/src/VKRenderer.cpp:195-212 | for a device with one family that draws and presents, `QueueCreateInfosOf` of its scanned queue record is family 0 twice, which is not unique |
| `Renderer.QueueCreateInfosCorrected` | APIModernes_Vulkan/src/VKRenderer.cpp:193-212 | each of the two families is requested exactly once, with one queue |
| `Renderer.BuildDeviceCreateInfo` | APIModernes_Vulkan/src/VKRenderer.cpp:191-225 | the create-info filled in field by field is `DeviceCreateInfoOf`: the two queue create-infos, their count (2), the chosen features, and the validation layers only in a `_DEBUG` build |
| `Renderer.ChosenDeviceRequestsCapableFamilies` | APIModernes_Vulkan/src/VKRenderer.cpp:191-227 | when some device qualifies, the logical device is requested on the chosen device's families: the first create-info names a family that can present, the second one with the graphics bit |
| `Renderer.NoQualifyingDeviceRequestsSentinel` | APIModernes_Vulkan/src/VKRenderer.cpp:94-96 | when no device qualifies, the create-info built from the kept description requests family `UINT32_MAX` for both queues |
| `Renderer.VKRenderer.constructor` | APIModernes_Vulkan/src/Application.cpp:17 | `new VKRenderer()` value-initialises the renderer: no instance, surface or device, no request made, and a default physical-device description whose queue fields hold the `UINT32_MAX` initialisers of Utils.h:28-29 |
| `Renderer.VKRenderer.CreateVKInstance` | APIModernes_Vulkan/src/VKRenderer.cpp:8-55 | in a `_DEBUG` build a failed layer check returns false without creating the instance; otherwise the result is that of `vkCreateInstance` |
| `Renderer.VKRenderer.PickPhysicalDevice` | APIModernes_Vulkan/src/VKRenderer.cpp:83-97 | false iff no device is enumerated, leaving the description alone; otherwise stores `GetBestDevice`'s result and returns true, even when nothing qualified |
| `Renderer.VKRenderer.CreateLogicalDevice` | APIModernes_Vulkan/src/VKRenderer.cpp:191-228 | records `DeviceCreateInfoOf` the chosen device as the create-info handed to `vkCreateDevice`, and returns that call's outcome, recording whether the device exists |
| `Renderer.VKRenderer.CreateSwapChain` | APIModernes_Vulkan/src/VKRenderer.cpp:230-240 | always returns false |
| `Renderer.VKRenderer.Init` | APIModernes_Vulkan/src/VKRenderer.cpp:246-258 | every step runs whatever the earlier ones returned (instance, surface, device choice, logical device are all updated, and the logical device is requested with `DeviceCreateInfoOf` the new description); the `&=` of the results is always false |
| `Renderer.VKRenderer.Release` | APIModernes_Vulkan/src/VKRenderer.cpp:260-267 | destroys the device, then the surface, then the instance last |

## Findings

| source | as written | input that shows it | evidently intended | confidence | as-written member | corrected member |
|---|---|---|---|---|---|---|
| APIModernes_Vulkan/src/VKRenderer.cpp:71 | `isFound = strcmp(...)` marks a layer found when the names differ | request `VK_LAYER_KHRONOS_validation`; driver reports exactly that layer → refused; driver reports only `VK_LAYER_LUNARG_monitor` → accepted | found when `strcmp(...) == 0` | high, not executed | `DeviceSelection.CanEnableValidationLayers`, `DeviceSelection.KhronosLayerCheckInverted` | `DeviceSelection.CanEnableValidationLayersCorrected` |
| APIModernes_Vulkan/src/VKRenderer.cpp:104-105 | the vector receiving extension names is never sized, so no name is read | required `{VK_KHR_swapchain}`, device reports `VK_KHR_swapchain` → check fails | size the vector to the reported count before the second query | high, not executed | `DeviceSelection.CheckDeviceExtensions`, `DeviceSelection.ExtensionCheckRejectsCapableDevice` | `DeviceSelection.CheckDeviceExtensionsCorrected` |
| APIModernes_Vulkan/src/VKRenderer.cpp:125-127 | the extension check's result is computed and dropped | discrete GPU with geometry shaders and no extensions, `VK_KHR_swapchain` required → supported | AND the extension result into the return value | high, not executed | `DeviceSelection.DeviceIsSupported`, `DeviceSelection.DeviceWithoutRequiredExtensionAccepted` | `DeviceSelection.DeviceIsSupportedCorrected` |
| APIModernes_Vulkan/src/VKRenderer.cpp:195-212 | one queue create-info per index even when present and graphics families are equal; the Vulkan specification requires each `queueFamilyIndex` in `pQueueCreateInfos` to be unique | a device with one queue family that draws and presents → family 0 requested twice | one create-info per distinct family | high, not executed | `Renderer.QueueCreateInfosOf`, `Renderer.SingleFamilyDeviceRequestsFamilyTwice` | `Renderer.QueueCreateInfosCorrected` |

The corrected members stand beside the as-written ones. The renderer (`Renderer.VKRenderer`) keeps the as-written behaviour, because that is what the program does.

## Left out

- Creating and destroying Vulkan and GLFW objects (`vkCreateInstance`, `glfwCreateWindowSurface`, `vkCreateDevice`, `vkCreateSwapchainKHR`, the `vkDestroy*` calls) is foreign code. Their outcomes are inputs in `Platform`, and each handle is modelled only by whether it was created. `Release` is modelled as its order of destroy calls.
- The contents of `VkInstanceCreateInfo` and `VkApplicationInfo` (names, versions, GLFW extension list, enabled layers) are not modelled. `CreateVKInstance` keeps only its control flow.
- `vkGetDeviceQueue` at the end of `Init` has no result and is not modelled. `mPresentQueue` is not a field of the model.
- `CreateSwapChain` is modelled by its result only. The `sType`/`surface` fields it fills and `mSwapChain` are not modelled.
- `Renderer.VKRenderer.CreateLogicalDevice`: the outcome of `vkCreateDevice` is an input that does not depend on the create-info. A real driver may reject the duplicated queue family or the sentinel index.
- Enumerating devices on a failed instance, and destroying handles that were never created, are undefined in C++. The model lets them proceed with the given inputs.
- `Renderer.BuildDeviceCreateInfo`: `enabledExtensionCount` stays 0, so `mRequiredExtensions` is never enabled on the logical device; `DeviceCreateInfo` has no extension field, which records that no extension is enabled.
- `PhysicalDeviceFeatures` keeps only `geometryShader`, the one feature the code reads. `CreateLogicalDevice` passes the whole features record on.
- The queue-family count is kept below `UINT32_MAX` by the type `QueueFamilyList`, so that no real index equals the sentinel. Vulkan reports the count in a `uint32_t`, so only a count of exactly `UINT32_MAX` is excluded.
- The float `queuePriorities` constant is not modelled, and neither are the application, engine and window macros of `Utils.h`.
- Names are compared as whole strings. The fixed-size, NUL-terminated `char` arrays of Vulkan's property structs are not modelled.
- The application, its window and its entry point are not part of this model: `Application.cpp`, `Application.h`, `Window.cpp`, `Window.h` and `main.cpp`. Neither are `IRenderer.h` and the shader-file reading in `Utils.cpp`. They are windowing, process and file I/O plumbing.
- Swapchain format, extent and image-count negotiation, pipelines, resources and the frame loop are not part of this model. These files do not contain them.
