# vk_rust_learn in Dafny

A model of the core of the Rust Vulkan renderer *vk_rust_learn*. The model covers these parts:

- selection of the physical and logical device;
- choice of the multisample count;
- framebuffers, the command pool and command buffers, and the one-time command protocol;
- the vertex layout, memory-type lookup, buffer creation and the staged upload of the vertex and index lists;
- the descriptor-set layout, the uniform buffers, and the descriptor pool and sets;
- mip-chain generation;
- the application object: per-frame recording of the primary and secondary command buffers, the frame loop, swapchain recreation and teardown;
- the window-event handler.

Vulkan itself is modelled as an abstract device, the class `Vk.Gpu`, with these parts:

- Handles are natural numbers, and 0 is the null handle.
- Fresh handles are issued in order from the counter `next`.
- `live` is the set of handles created and not yet destroyed.
- `log` is the sequence of API calls made.
- `recording` maps each command buffer to the commands recorded in it. A submission records a snapshot of those commands.
- `invalidFrees` collects every non-null handle that is destroyed while not live, which exposes double destroys.
- The ghost counter `frameCalls` counts the calls of the frame cycle: fence waits and resets, acquire, submit with a fence, and present.

Each source file is one module:

| module | source file |
|---|---|
| `Sampling` | `src/scenes/sampling.rs` |
| `DeviceSelection` | `src/foundation/device.rs` |
| `Buffers` | `src/pipeline/buffers.rs` |
| `VertexBuffers` | `src/pipeline/vertex.rs` |
| `Descriptors` | `src/pipeline/descriptors.rs` |
| `Mipmaps` | `src/scenes/mipmaps.rs` |
| `Application` | `src/app.rs` |
| `EventLoop` | `src/main.rs` |

`AppState.AppData` is the mutable `AppData` record the source passes around. Operations that change it, or change the device, are methods; they state the new state of `data` and of the `Gpu`. Pure computations are functions, with lemmas about them.

The model follows the code as written, including these defects:

- `destroy_swapchain` destroys the color image view twice and never destroys the color image. The second destroy lands in `invalidFrees`.
- `recreate_swapchain` has four leaks:
  - it destroys the vertex buffer but not its memory;
  - it creates a new descriptor-set layout without destroying the old one;
  - it replaces the index buffer and its memory without destroying the old ones;
  - `create_command_buffers` replaces the secondary table with empty rows (src/pipeline/buffers.rs:58), and no secondary buffer of the old table is ever freed. `Application.App.RecreateSwapchain` removes from `live` only the vertex buffer and the swapchain-derived handles, none of which is a secondary buffer, and leaves the table empty.
- `update_secondary_command_buffer` resizes the outer secondary table to `image_index + 1` rows on every render (src/app.rs:109-111). Drawing image `k` drops the rows of every later image, and their buffers are never freed. `Application.Looked` keeps this truncation.
- `create_buffer` leaves the new buffer live when no memory type is suitable. A staged upload whose destination buffer fails also leaves its staging pair live.
- The fragment push constant is always the constant 0.25, and the per-model opacity is computed but not used.
- `generate_mipmaps` moves only level `mipLevels - 1` to SHADER_READ_ONLY_OPTIMAL (src/scenes/mipmaps.rs:120-134). Levels 0 to `mipLevels - 2`, every level a blit reads from, are left in TRANSFER_SRC_OPTIMAL. That includes level 0, the only level the texture view exposes (src/pipeline/texture.rs:34-35). `Mipmaps.GenerateMipmaps` records the chain the code records, and "## Findings" shows the consequence.

## Model

| member | source | states |
|---|---|---|
| Sampling.CandidatesDecreasing | src/scenes/sampling.rs:15-22 | the candidate counts 64, 32, 16, 8, 4, 2 are tried in strictly decreasing order |
| Sampling.FirstContained | src/scenes/sampling.rs:15-25 | the search returns the first candidate contained in the mask; no earlier candidate is contained; it returns the end when none is |
| Sampling.MaxMsaaSamples | src/scenes/sampling.rs:10-27 | the result is 1 or one of the candidate counts |
| Sampling.MaxMsaaSamplesSupported | src/scenes/sampling.rs:12-26 | a count other than 1 is chosen only if both the color and the depth counts support it |
| Sampling.MaxMsaaSamplesIsLargest | src/scenes/sampling.rs:15-26 | no candidate supported by both is larger than the chosen count |
| Sampling.MaxMsaaSamplesFallback | src/scenes/sampling.rs:25-26 | 1 is chosen exactly when no candidate is supported by both |
| Sampling.MaxMsaaSamplesIsSingleBit | src/scenes/sampling.rs:15-26 | the chosen value is a single-bit sample-count flag |
| DeviceSelection.GraphicsFamily | src/foundation/device.rs:57-60 | the first family with the GRAPHICS flag; no earlier family has it; None exactly when no family has it |
| DeviceSelection.PresentFamily | src/foundation/device.rs:63-73 | the first family that supports the surface; None exactly when none does |
| DeviceSelection.GetQueueFamilyIndices | src/foundation/device.rs:51-80 | Ok exactly when both families exist, with the first graphics family and the first present family; otherwise the missing-queue-families error |
| DeviceSelection.AllAvailable | src/foundation/device.rs:114-116 | true exactly when every required name is available |
| DeviceSelection.CheckDeviceExtensions | src/foundation/device.rs:106-123 | passes exactly when every required device extension is available; otherwise the missing-extensions error |
| DeviceSelection.CheckPhysicalDevice | src/foundation/device.rs:83-104 | passes exactly when the device is suitable; each failed check, taken in the source's order, gives its own error |
| DeviceSelection.PickPhysicalDevice | src/foundation/device.rs:25-42 | passes exactly when some device is suitable, and stores the first suitable device in enumeration order; otherwise fails with no suitable device and leaves the stored device unchanged |
| DeviceSelection.UniqueQueueFamilies | src/foundation/device.rs:132-134 | holds both indices and nothing else: one entry when they are equal, two otherwise |
| DeviceSelection.EnabledExtensions | src/foundation/device.rs:143-150 | the required extensions, plus the portability subset exactly on macOS with a recent enough loader |
| DeviceSelection.CreateLogicalDevice | src/foundation/device.rs:125-174 | fails exactly when a queue family is missing, and then leaves the queues unchanged; otherwise stores queue 0 of the first graphics family and of the first surface-supporting family and builds the create info from the unique families, the extensions, the validation layer and anisotropy |
| Buffers.OneTimeSubmissionIsSetup | src/pipeline/buffers.rs:64-97 | a one-time command makes no frame-cycle call; its single submission has no fence and no wait semaphore and carries what was recorded; a queue-idle wait and the free of the buffer follow it |
| Buffers.CreateFramebuffers | src/pipeline/buffers.rs:12-30 | one fresh framebuffer per swapchain view, in order, each over the color view, the depth view and that image's view, at the swapchain extent with one layer |
| Buffers.CreateCommandPool | src/pipeline/buffers.rs:34-46 | fails, changing nothing, exactly when a queue family is missing; otherwise creates a resettable pool on the graphics family |
| Buffers.CreateCommandBuffers | src/pipeline/buffers.rs:50-62 | one primary buffer per framebuffer, allocated in one call; the secondary table gets one empty row per swapchain image |
| Buffers.BeginOnetimeCommand | src/pipeline/buffers.rs:64-80 | allocates one fresh primary buffer and begins it for one submission with nothing recorded |
| Buffers.EndOnetimeCommand | src/pipeline/buffers.rs:82-97 | ends the buffer, submits its contents to the graphics queue with no fence, waits for the queue to go idle and frees the buffer |
| VertexBuffers.VertexBindingDescription | src/pipeline/vertex.rs:37-43 | binding 0, per vertex, with a stride of 32 bytes, the size of a vertex |
| VertexBuffers.VertexAttributeDescriptions | src/pipeline/vertex.rs:45-68 | locations 0, 1, 2 of binding 0 at offsets 0, 12, 24; each attribute lies inside the stride and no two overlap |
| VertexBuffers.FindMemoryType | src/pipeline/vertex.rs:99-104 | the first memory type allowed by the requirement bits that has every requested property; None exactly when there is none |
| VertexBuffers.MemoryTypeIndex | src/pipeline/vertex.rs:92-106 | the smallest suitable memory-type index; the no-suitable-memory error exactly when no type below the type count is suitable |
| VertexBuffers.CreateBuffer | src/pipeline/vertex.rs:108-136 | fails exactly when no memory type is suitable, and then leaves the new buffer live; otherwise creates the buffer, allocates the required size from the first suitable type and binds it at offset 0 |
| VertexBuffers.CopyBuffer | src/pipeline/vertex.rs:140-155 | one one-time submission holding a single copy of `size` bytes at offset 0 on both sides |
| VertexBuffers.FillStagingBuffer | src/pipeline/vertex.rs:167-179 | fails exactly when no host-visible, host-coherent type is suitable; otherwise creates the staging pair and maps and unmaps its memory |
| VertexBuffers.CopyFromStaging | src/pipeline/vertex.rs:193-196 | copies from staging to the destination, then destroys the staging buffer and memory, which are no longer live |
| VertexBuffers.UploadFromStaging | src/pipeline/vertex.rs:181-196 | fails exactly when no device-local type is suitable, leaving the staging pair live; otherwise the destination pair replaces the staging pair in the live set |
| VertexBuffers.StagedUpload | src/pipeline/vertex.rs:159-200 | succeeds exactly when both memory lookups succeed; then only the destination pair is left live and the calls are staging, destination, copy and release, in that order |
| VertexBuffers.UploadComposes | src/pipeline/vertex.rs:167-196 | the staging half and the transfer half together leave exactly the destination pair live and log the whole upload |
| VertexBuffers.StagedUploadIsSetup | src/pipeline/vertex.rs:159-200 | a staged upload makes no frame-cycle call |
| VertexBuffers.CreateIndexBuffer | src/pipeline/vertex.rs:159-200 | uploads 4 bytes per index; on success stores the new device-local pair; on failure leaves the stored pair unchanged |
| VertexBuffers.CreateVertexBuffer | src/pipeline/vertex.rs:204-243 | uploads 32 bytes per vertex; on success stores the new device-local pair; on failure leaves the stored pair unchanged |
| Descriptors.LayoutBindings | src/pipeline/descriptors.rs:23-35 | two bindings with distinct numbers: a uniform buffer for the vertex stage at 0 and a combined image sampler for the fragment stage at 1, one descriptor each |
| Descriptors.CreateDescriptorSetLayout | src/pipeline/descriptors.rs:22-40 | creates a fresh layout with those bindings and stores it; an earlier layout stays live |
| Descriptors.UniformBufferOpsLayout | src/pipeline/descriptors.rs:50-62 | the calls for uniform buffer `i` create buffer `first + 2i` and bind it to memory `first + 2i + 1` |
| Descriptors.EveryOtherAt | src/pipeline/descriptors.rs:60-61 | entry `i` of a stored handle list is `first + 2i` |
| Descriptors.CreateUniformBuffers | src/pipeline/descriptors.rs:42-65 | clears both lists; either creates one 192-byte host-visible uniform buffer per swapchain image, stored in order with its memory, and adds exactly those handles to the live set; or fails at the first creation with both lists empty and only that buffer added to the live set |
| Descriptors.CreateUniformBufferList | src/pipeline/descriptors.rs:50-62 | the creation loop: all `n` buffers and memories, in order, are added to the live set and to nothing else; or it stops at the first failure with only that buffer added |
| Descriptors.UniformBufferOpsAreSetup | src/pipeline/descriptors.rs:42-65 | creating the uniform buffers makes no frame-cycle call |
| Descriptors.CreateDescriptorPool | src/pipeline/descriptors.rs:67-80 | a fresh pool with one uniform-buffer descriptor per image and one set per image |
| Descriptors.CreateDescriptorSets | src/pipeline/descriptors.rs:82-107 | one set per image, all with the stored layout and allocated in one call; then binding 0 of set `i` is written with the whole uniform object of buffer `i`, in order |
| Descriptors.WritesMatchLayoutAndPool | src/pipeline/descriptors.rs:82-107 | every descriptor write targets a binding and type the layout declares, and the pool reserves one such descriptor per set |
| Descriptors.PoolLacksSamplerDescriptors | src/pipeline/descriptors.rs:67-80 | the layout declares a sampler binding that the pool reserves no descriptor for |
| Descriptors.UpdateUniformBuffer | src/pipeline/descriptors.rs:138-146 | maps the whole uniform object in the memory of the drawn image, then unmaps it |
| Mipmaps.GenerateMipmaps | src/scenes/mipmaps.rs:14-140 | fails, changing nothing, exactly when the format lacks linear-filter blit support; otherwise submits one one-time buffer holding the mip chain |
| Mipmaps.RecordMipChain | src/scenes/mipmaps.rs:49-134 | appends the per-level barrier and blit for levels `1 .. mipLevels`, then the final barrier, to what the buffer held |
| Mipmaps.MipExtentBounds | src/scenes/mipmaps.rs:111-117 | from a base of at least 1, the tracked dimension never grows and never falls below 1 |
| Mipmaps.BlitTargetIsNextLevel | src/scenes/mipmaps.rs:91-117 | the destination extent of each blit is the source extent of the next iteration |
| Mipmaps.ZeroExtentStaysZero | src/scenes/mipmaps.rs:91-117 | a zero dimension stays 0 as a source extent but is blitted to 1 |
| Mipmaps.MipExtentClosedForm | src/scenes/mipmaps.rs:111-117 | after `i` iterations the dimension is `max(1, d / 2^i)` |
| Mipmaps.IterationsLayouts | src/scenes/mipmaps.rs:52-118 | after `k` iterations, levels below `k` are transfer sources and the rest are transfer destinations, with every barrier's old layout matching |
| Mipmaps.MipCommandsLayouts | src/scenes/mipmaps.rs:52-134 | the chain as written is valid from all levels in transfer-destination layout, and leaves the last level shader-readable and every other level a transfer source |
| Mipmaps.MipCommandsLeaveBaseLevelUnreadable | src/scenes/mipmaps.rs:52-118 | with two or more levels, level 0 ends in transfer-source layout, so not every level is shader-readable |
| Mipmaps.IntendedMipCommandsLayouts | src/scenes/mipmaps.rs:52-134 | with a shader-read barrier after each blit, every level ends shader-readable |
| Application.ResizedTableRows | src/app.rs:109-111 | resizing the secondary table keeps the rows that fit and pads with empty rows |
| Application.GrownTableProperties | src/app.rs:109-124 | one lookup leaves rows before the image as they were, drops the rows after it, and only appends fresh buffers to the image's row, which then has an entry for the model |
| Application.App.constructor | src/app.rs:92-101 | frame 0, not resized, one model drawn |
| Application.App.GrowRow | src/app.rs:114-122 | allocates one fresh secondary buffer per missing entry, each in its own call, until the row has an entry for the model |
| Application.App.SecondaryBufferFor | src/app.rs:109-124 | the resized table with the grown row; returns that row's entry for the model |
| Application.App.RecordSecondary | src/app.rs:149-185 | the buffer holds the pipeline bind, the vertex, index and descriptor-set binds, the vertex push constant of 64 bytes at offset 0, the fragment push constant of 4 bytes at 64, and the indexed draw of all indices |
| Application.App.UpdateSecondaryCommandBuffer | src/app.rs:104-189 | looks up or allocates the model's buffer and begins it to continue the image's render pass and framebuffer; the buffer then holds the instance's draw; nothing else is recorded |
| Application.App.LookupNext | src/app.rs:234-236 | one more lookup extends the returned buffers, the table, the calls and the recordings to those of one more model |
| Application.App.RecordSecondaries | src/app.rs:234-236 | the lookups of models `0 .. count` in order; the buffers returned are the first `count` entries of the grown row, and each holds the draw |
| Application.App.StartPrimary | src/app.rs:196-232 | resets the primary buffer, begins it for one submission and opens the render pass over the image's framebuffer and the full extent |
| Application.App.FinishPrimary | src/app.rs:238-243 | executes the secondary buffers, closes the render pass and ends the buffer |
| Application.LookedKeepsPrimaries | src/app.rs:108-121 | buffers allocated by lookups are numbered after every primary buffer, so no primary buffer enters a secondary row |
| Application.App.UpdateCommandBuffer | src/app.rs:193-246 | the primary buffer holds exactly: begin the render pass, execute the secondary buffers of models `0 .. models`, end the render pass; the secondary calls come between its begin and end |
| Application.TeardownLeaks | src/app.rs:282-324 | swapchain teardown never destroys the color image, unless it is also the depth image, and never destroys a descriptor-set layout |
| Application.App.DestroyColorDepth | src/app.rs:284-296 | destroys the color view twice, the color memory, the depth view, memory and image, and the descriptor pool; the second color-view destroy is invalid |
| Application.App.DestroyPerImage | src/app.rs:298-313 | destroys the uniform buffers and memories and the framebuffers, and frees the primary command buffers |
| Application.App.DestroyPresentation | src/app.rs:314-322 | destroys the pipeline, its layout, the render pass, the swapchain views and the swapchain |
| Application.App.DestroySwapchain | src/app.rs:282-324 | releases exactly the swapchain-derived handles, in the source's order, with the color view's second destroy recorded as invalid |
| Application.App.DestroyTexture | src/app.rs:404-410 | destroys the sampler, the texture view, image and memory |
| Application.App.DestroyGeometry | src/app.rs:412-418 | destroys the descriptor-set layout, the index buffer and memory, and the vertex buffer and memory |
| Application.App.DestroySync | src/app.rs:420-436 | destroys the fences, both kinds of semaphores and the command pool |
| Application.App.Destroy | src/app.rs:402-446 | releases exactly the application's handles, in the source's order; the color view's second destroy is invalid |
| Application.DestroyLeaksColorImage | src/app.rs:402-446 | the color image, when it is neither the depth image nor the texture image, is never destroyed |
| Application.ResizedFencesEntries | src/app.rs:275-277 | resizing the image-fence table keeps the entries that fit and fills new slots with the null fence |
| Application.App.TearDownForRecreate | src/app.rs:252-254 | waits for the device, destroys the vertex buffer only (not its memory), then tears down the swapchain |
| Application.App.CreateSwapchain | src/app.rs:257-258 | a swapchain with the configured number of images and extent, and one view per image |
| Application.App.CreateRenderPass | src/app.rs:259 | creates a fresh render pass and keeps every live handle live |
| Application.App.CreatePipeline | src/app.rs:261 | creates a fresh pipeline layout and pipeline and keeps every live handle live |
| Application.App.CreateAttachments | src/app.rs:263-264 | creates a fresh color image, memory and view, and the same for depth, keeping every live handle live |
| Application.App.RebuildPresentation | src/app.rs:257-265 | one view and one framebuffer per image of the new swapchain, at its extent |
| Application.App.UploadGeometry | src/app.rs:266-267 | uploads the vertex list, then the index list; fails only when no memory type is suitable |
| Application.App.AllocatePerImage | src/app.rs:270-272 | the pool, one descriptor set and one freshly issued primary buffer per image, and an empty secondary row per image |
| Application.App.DescribeImages | src/app.rs:269-272 | on success every per-image list has one entry per image, and the secondary table is empty |
| Application.App.RebuildResources | src/app.rs:266-272 | the first failing step's error is returned; on success every per-image list matches the image count |
| Application.App.Rebuild | src/app.rs:257-277 | on success the new swapchain has the configured images and extent, every per-image list matches it, every primary buffer is issued, the fence table is resized with null fences, and the secondary table is empty; the frame slots' fences and semaphores are kept |
| Application.App.RecreateSwapchain | src/app.rs:250-280 | everything rebuilt as in Rebuild, the frame slots' fences and semaphores kept; the old handles except the vertex buffer and the swapchain-derived ones stay live; the color view's double destroy is recorded |
| Application.App.AcquireImage | src/app.rs:328-336 | waits on the slot's fence, then acquires with the slot's image-available semaphore |
| Application.App.WaitForImage | src/app.rs:344-352 | waits for the image's fence only if it is not null, then gives the image the slot's fence; no other entry changes |
| Application.App.RecordFrame | src/app.rs:354-355 | the image's primary buffer runs the render pass over the first `models` secondary buffers, and the state stays ready to render |
| Application.App.SubmitFrame | src/app.rs:354-374 | resets the slot's fence, then submits the image's re-recorded primary buffer, waiting on the slot's image-available semaphore and signalling its render-finished semaphore and fence; the state stays ready to render |
| Application.App.PresentFrame | src/app.rs:376-398 | presents; recreates exactly when the window was resized or present reported suboptimal or out of date; otherwise the only call is the present of image `k` on the present queue, waiting on the slot's render-finished semaphore, nothing in `data` or the device's handles changes, and it fails exactly on a present error; advances the slot only on success, after which the state is ready to render again |
| Application.App.DrawFrame | src/app.rs:344-398 | the image takes the slot's fence; without a recreation the last three calls are the fence reset, the submit of the image's primary buffer signalling that fence, and the present; a success leaves the state ready to render |
| Application.App.Render | src/app.rs:327-399 | out of date at acquire means recreate; another acquire error is returned after the two calls without drawing; an acquired image is waited for, recorded, submitted and presented, and the frame slot advances modulo 2 only on success; a success leaves the state ready for the next frame |
| EventLoop.ModelsAfterKey | src/main.rs:59-71 | only a pressed left arrow with more than one model lowers the count, only a pressed right arrow with fewer than four raises it, and each by one |
| EventLoop.KeyKeepsModelsInRange | src/main.rs:59-71 | one key event keeps the count between 1 and 4 |
| EventLoop.KeysKeepModelsInRange | src/main.rs:59-71 | no sequence of key events takes the count out of 1 to 4 |
| EventLoop.ReleasedKeysKeepModels | src/main.rs:60 | released keys never change the count |
| EventLoop.Handler.constructor | src/main.rs:32-33 | not minimized and not exiting, with the count in range |
| EventLoop.Handler.OnResized | src/main.rs:51-58 | a zero width or height sets minimized and leaves the resize flag alone; any other size clears minimized and sets the resize flag |
| EventLoop.Handler.OnKey | src/main.rs:59-71 | the count after the key is the one ModelsAfterKey gives, and stays between 1 and 4 |
| EventLoop.Handler.OnRedraw | src/main.rs:40-42 | while exiting or minimized nothing is called, nothing changes and nothing is demanded of the application; otherwise a frame is rendered from a ready state, and a success leaves the application ready to render |
| EventLoop.Handler.OnClose | src/main.rs:44-49 | sets exiting, waits for the device, then makes the teardown calls and releases the application's handles; the device stays well formed |
| EventLoop.Handler.HandleEvent | src/main.rs:35-73 | only key events change the count, which stays between 1 and 4; only close sets exiting, and a close leaves the device well formed; only resize changes minimized; resize, key and other events make no device call and keep the application ready to render; a redraw while exiting or minimized needs nothing and changes nothing; a successful redraw leaves the application ready |

## Left out

- The instance, the surface, the debug messenger, the logical device and their destruction are not modelled (app.rs:437-445). Window creation and the event loop's own machinery are not modelled either.
- `src/pipeline/texture.rs`, `src/pipeline/shader.rs`, model loading, `create_texture_image`, `create_texture_image_view`, `create_texture_sampler` and `create_sync_objects` are not part of this model. Their results are fields of `AppData`.
- Application.App.CreateSwapchain, Application.App.CreateRenderPass, Application.App.CreatePipeline, Application.App.CreateAttachments: the creators behind them (`create_swapchain`, the swapchain image views, `create_render_pass`, `create_pipeline`, `create_color_objects`, `create_depth_objects`) are not part of this model. These members only create fresh handles. `SwapchainConfig` stands for the image count and extent the window and surface would give.
- Errors from Vulkan calls are modelled only where the model gives them a meaning: memory-type lookup, the blit format check, device and queue-family selection, and the results of acquire and present. Every other call is modelled as succeeding.
- The `.unwrap()` panics in the event handler are not modelled; a failed render result is returned instead.
- Floating point is left out: the uniform matrices, the per-model translation and rotation, the clear values, and the contents of the push constants. The fragment push constant's value is the constant 0.25. The elapsed-time clock is left out.
- The bytes copied through mapped memory (`memcpy`) are not modelled; only the map and unmap calls are.
- VertexBuffers.CreateBuffer: the memory size is the size the device reports for the buffer. The model takes it equal to the requested size, so alignment padding is not modelled.
- Mipmaps.RecordMipChain: the blit offsets are `u32` values cast to `i32`. The model keeps them as natural numbers, so the wrap of dimensions above 2^31 - 1 is not modelled.
- Mipmaps.GenerateMipmaps: requires at least one mip level. The source computes the count from the texture size, and that code is not part of this model.
- VertexBuffers.CreateBuffer: the device's memory requirements carry one memory-type mask (`Gpu.bufferMemoryTypeBits`) for every buffer usage. Vulkan may report a different mask for each usage, so a device where only some usages find a memory type is not modelled.
- Application.App.PresentFrame: when a recreation follows the present, the contract does not list the calls made, because the creators behind `Application.App.Rebuild` state only their handles.
- Application.App.Render: the suboptimal flag returned with an acquired image is ignored, as in the source. The caller must supply distinct primary and secondary command buffers (`ReadyToRender`).
- Application.App.DestroySync: destroying the command pool frees its command buffers in Vulkan. The model keeps the secondary buffers in `live`, because the source never frees them explicitly.
- EventLoop.Handler.HandleEvent: the handler that requests a redraw when the loop is about to wait is not modelled.

## Findings

| source | as written | input that shows it | evidently intended | confidence | as-written member | corrected member |
|---|---|---|---|---|---|---|
| src/scenes/mipmaps.rs:52-118 | each level `i - 1` is moved to transfer-source layout for its blit and never leaves it; only the last level gets a shader-read barrier | any texture with `mipLevels >= 2`, for example 512x512 with 10 levels: levels 0 to 8 (0 to `mipLevels - 2`) end in TRANSFER_SRC_OPTIMAL, including level 0, the only level the texture view exposes | after each blit, a barrier moves level `i - 1` from transfer source to shader read, so every level ends shader-readable | not executed | Mipmaps.MipCommandsLeaveBaseLevelUnreadable | Mipmaps.IntendedMipCommandsLayouts |
