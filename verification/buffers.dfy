/** Framebuffers, the command pool, the per-image primary command buffers and the one-time
    command protocol (pipeline/buffers.rs). */
module Buffers {
  import opened Vk
  import opened AppState
  import DeviceSelection

  /** The calls a one-time command makes, from allocation to release, when `cmds` were
      recorded into it. */
  function OneTimeSubmission(cb: Handle, queue: Queue, cmds: seq<Cmd>): seq<Op> {
    [CommandBuffersAllocated(Primary, [cb]), BeginCommandBuffer(cb, OneTimeSubmit),
     EndCommandBuffer(cb), QueueSubmit(queue, NULL, cb, cmds, NULL, NULL),
     QueueWaitIdle(queue), CommandBuffersFreed([cb])]
  }

  /** A one-time submission waits for the queue to go idle only after its only submission,
      which signals no fence, and frees the buffer last: it is never part of the frame cycle. */
  lemma OneTimeSubmissionIsSetup(cb: Handle, queue: Queue, cmds: seq<Cmd>, before: seq<Op>)
    ensures NoFrameOpsSince(before + OneTimeSubmission(cb, queue, cmds), |before|)
    ensures var ops := OneTimeSubmission(cb, queue, cmds);
            && ops[3].QueueSubmit? && ops[3].buffer == cb && ops[3].commands == cmds
            && ops[3].fence == NULL && ops[3].waitSemaphore == NULL
            && ops[4] == QueueWaitIdle(queue) && ops[5] == CommandBuffersFreed([cb])
  {
    var ops := before + OneTimeSubmission(cb, queue, cmds);
    forall i | |before| <= i < |ops| ensures !FrameOp(ops[i]) {
      assert ops[i] == OneTimeSubmission(cb, queue, cmds)[i - |before|];
    }
  }

  /** One framebuffer per swapchain image view, in the same order, each with the color,
      depth and image-view attachments, the swapchain extent and one layer. */
  method CreateFramebuffers(gpu: Gpu, data: AppData)
    requires gpu.Valid()
    modifies gpu`live, gpu`next, gpu`log, data`framebuffers
    ensures gpu.Valid()
    ensures |data.framebuffers| == |data.swapchainImageViews|
    ensures forall i | 0 <= i < |data.framebuffers| :: data.framebuffers[i] == old(gpu.next) + i
    ensures gpu.next == old(gpu.next) + |data.framebuffers|
    ensures gpu.live == old(gpu.live) + Elems(data.framebuffers)
    ensures old(gpu.log) <= gpu.log && |gpu.log| == |old(gpu.log)| + |data.framebuffers|
    ensures forall i | 0 <= i < |data.framebuffers| ::
              gpu.log[|old(gpu.log)| + i] == Created(data.framebuffers[i],
                FramebufferInfo(data.renderPass,
                                [data.colorImageView, data.depthImageView, data.swapchainImageViews[i]],
                                data.swapchainExtent.width, data.swapchainExtent.height, 1))
  {
    var views := data.swapchainImageViews;
    var framebuffers: seq<Handle> := [];
    var i := 0;
    while i < |views|
      invariant 0 <= i <= |views| && |framebuffers| == i && gpu.Valid()
      invariant forall j | 0 <= j < i :: framebuffers[j] == old(gpu.next) + j
      invariant gpu.next == old(gpu.next) + i
      invariant gpu.live == old(gpu.live) + Elems(framebuffers)
      invariant old(gpu.log) <= gpu.log && |gpu.log| == |old(gpu.log)| + i
      invariant forall j | 0 <= j < i ::
                  gpu.log[|old(gpu.log)| + j] == Created(framebuffers[j],
                    FramebufferInfo(data.renderPass, [data.colorImageView, data.depthImageView, views[j]],
                                    data.swapchainExtent.width, data.swapchainExtent.height, 1))
    {
      var attachments := [data.colorImageView, data.depthImageView, views[i]];
      var fb := gpu.Create(FramebufferInfo(data.renderPass, attachments,
                                           data.swapchainExtent.width, data.swapchainExtent.height, 1));
      assert (framebuffers + [fb])[..i] == framebuffers;
      framebuffers := framebuffers + [fb];
      i := i + 1;
    }
    data.framebuffers := framebuffers;
  }

  /** The command pool lives on the graphics queue family and lets buffers be reset one by one. */
  method CreateCommandPool(gpu: Gpu, data: AppData, device: DeviceSelection.PhysicalDevice) returns (r: Outcome)
    requires gpu.Valid()
    modifies gpu`live, gpu`next, gpu`log, data`commandPool
    ensures gpu.Valid()
    ensures r.Fail? <==> !(DeviceSelection.HasGraphicsFamily(device) && DeviceSelection.HasPresentFamily(device))
    ensures r.Fail? ==> r.error == MissingQueueFamilies && unchanged(gpu) && unchanged(data)
    ensures r == Pass ==>
              && data.commandPool == old(gpu.next) && gpu.live == old(gpu.live) + {data.commandPool}
              && DeviceSelection.GraphicsFamily(device.queueFamilies, 0).Some?
              && gpu.log == old(gpu.log) + [Created(data.commandPool,
                   CommandPoolInfo(true, DeviceSelection.GraphicsFamily(device.queueFamilies, 0).value))]
  {
    var indices := DeviceSelection.GetQueueFamilyIndices(device);
    if indices.Err? {
      return Fail(indices.error);
    }
    data.commandPool := gpu.Create(CommandPoolInfo(true, indices.value.graphics));
    r := Pass;
  }

  /** A secondary-buffer table of `n` empty rows. */
  function EmptyTable(n: nat): (table: seq<seq<Handle>>)
    ensures |table| == n && forall k | 0 <= k < n :: table[k] == []
  {
    seq(n, _ => [])
  }

  /** One primary command buffer per framebuffer, and an empty secondary list per image. */
  method CreateCommandBuffers(gpu: Gpu, data: AppData)
    requires gpu.Valid()
    modifies gpu`live, gpu`next, gpu`log, data`commandBuffers, data`secondaryCommandBuffers
    ensures gpu.Valid()
    ensures data.commandBuffers == IdRange(old(gpu.next), |data.framebuffers|)
    ensures gpu.next == old(gpu.next) + |data.framebuffers|
    ensures gpu.live == old(gpu.live) + Elems(data.commandBuffers)
    ensures gpu.log == old(gpu.log) + [CommandBuffersAllocated(Primary, data.commandBuffers)]
    ensures data.secondaryCommandBuffers == EmptyTable(|data.swapchainImages|)
  {
    data.commandBuffers := gpu.AllocateCommandBuffers(Primary, |data.framebuffers|);
    data.secondaryCommandBuffers := EmptyTable(|data.swapchainImages|);
  }

  /** Allocates one primary buffer and begins it for a single submission. */
  method BeginOnetimeCommand(gpu: Gpu, data: AppData) returns (cb: Handle)
    requires gpu.Valid()
    modifies gpu`live, gpu`next, gpu`log, gpu`recording
    ensures gpu.Valid()
    ensures cb == old(gpu.next) && gpu.next == old(gpu.next) + 1
    ensures gpu.live == old(gpu.live) + {cb} && cb !in old(gpu.live)
    ensures gpu.log == old(gpu.log) + [CommandBuffersAllocated(Primary, [cb]), BeginCommandBuffer(cb, OneTimeSubmit)]
    ensures gpu.recording == old(gpu.recording)[cb := []]
  {
    var buffers := gpu.AllocateCommandBuffers(Primary, 1);
    cb := buffers[0];
    assert buffers == [cb];
    gpu.Begin(cb, OneTimeSubmit);
  }

  /** Ends `cb`, submits it alone with no fence, waits for the graphics queue to go idle and
      frees the buffer. */
  method EndOnetimeCommand(gpu: Gpu, data: AppData, cb: Handle)
    requires gpu.Valid()
    modifies gpu`live, gpu`log
    ensures gpu.Valid()
    ensures gpu.live == old(gpu.live) - {cb}
    ensures gpu.log == old(gpu.log) + [EndCommandBuffer(cb),
              QueueSubmit(data.graphicsQueue, NULL, cb, gpu.Contents(cb), NULL, NULL),
              QueueWaitIdle(data.graphicsQueue), CommandBuffersFreed([cb])]
  {
    gpu.End(cb);
    gpu.Submit(data.graphicsQueue, NULL, cb, NULL);
    gpu.Call(QueueWaitIdle(data.graphicsQueue));
    gpu.FreeCommandBuffers([cb]);
    assert Elems([cb]) == {cb};
  }
}
