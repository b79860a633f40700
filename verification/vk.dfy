/** The graphics API seen from the renderer: every handle is an opaque id and every API call an
    operation on an abstract device.  The device keeps a ledger of live handles, a log of the
    calls made on it in order, and what has been recorded into each command buffer. */
module Vk {

  /** Opaque handle; 0 is the null handle. */
  type Handle = nat
  const NULL: Handle := 0

  type Flags = bv32

  /** `flags.contains(required)` of the bitflags types. */
  predicate Contains(flags: Flags, required: Flags) {
    flags & required == required
  }

  datatype Kind =
    | Buffer | Memory | Image | ImageView | Framebuffer | RenderPass | Pipeline | PipelineLayout
    | DescriptorSetLayout | DescriptorPool | CommandPool | CommandBuffer | Swapchain | Fence
    | Semaphore | Sampler

  /** The error kinds the core reports.  `ApiError` wraps any other result code of a call. */
  datatype Error =
    | NoSuitableMemoryType
    | UnsupportedBlitFormat
    | NoSuitablePhysicalDevice
    | MissingQueueFamilies
    | MissingDeviceExtensions
    | InsufficientSwapchainSupport
    | NoSamplerAnisotropy
    | ApiError(code: int)

  datatype Option<T> = None | Some(value: T)
  datatype Result<T> = Ok(value: T) | Err(error: Error)
  datatype Outcome = Pass | Fail(error: Error)

  datatype Extent = Extent(width: nat, height: nat)

  /** A device queue: queue `index` of queue family `family`. */
  datatype Queue = Queue(family: nat, index: nat)

  datatype MemoryType = MemoryType(propertyFlags: Flags)
  /** `memoryTypes` is the fixed array of VK_MAX_MEMORY_TYPES entries, of which the first
      `memoryTypeCount` are meaningful. */
  datatype MemoryProperties = MemoryProperties(memoryTypeCount: nat, memoryTypes: seq<MemoryType>)
  datatype MemoryRequirements = MemoryRequirements(size: nat, memoryTypeBits: Flags)

  const MAX_MEMORY_TYPES: nat := 32

  predicate WellFormedMemory(p: MemoryProperties) {
    p.memoryTypeCount <= |p.memoryTypes| == MAX_MEMORY_TYPES
  }

  datatype DescriptorType = UniformBufferDescriptor | CombinedImageSampler
  datatype ShaderStage = VertexStage | FragmentStage
  datatype LayoutBinding = LayoutBinding(binding: nat, descriptorType: DescriptorType, count: nat, stage: ShaderStage)
  datatype PoolSize = PoolSize(descriptorType: DescriptorType, count: nat)

  datatype ImageLayout = Undefined | TransferDstOptimal | TransferSrcOptimal | ShaderReadOnlyOptimal
  datatype Access = TransferWrite | TransferRead | ShaderRead
  datatype Stage = TransferStage | FragmentShaderStage
  datatype CommandBufferLevel = Primary | Secondary
  /** How a command buffer is begun; a secondary buffer continuing a render pass names the
      render pass (subpass 0) and the framebuffer it inherits. */
  datatype CommandBufferUsage = OneTimeSubmit | RenderPassContinue(renderPass: Handle, framebuffer: Handle)
  datatype SubpassContents = Inline | SecondaryCommandBuffers

  datatype BufferCopy = BufferCopy(srcOffset: nat, dstOffset: nat, size: nat)
  datatype ImageBarrier = ImageBarrier(image: Handle, level: nat, oldLayout: ImageLayout,
                                       newLayout: ImageLayout, srcAccess: Access, dstAccess: Access)
  /** A blit region: the whole of `srcExtent` at `srcLevel` onto the whole of `dstExtent` at `dstLevel`. */
  datatype Blit = Blit(srcLevel: nat, srcExtent: Extent, dstLevel: nat, dstExtent: Extent)

  /** Commands recorded into a command buffer. */
  datatype Cmd =
    | CopyBuffer(src: Handle, dst: Handle, regions: seq<BufferCopy>)
    | PipelineBarrier(srcStage: Stage, dstStage: Stage, barrier: ImageBarrier)
    | BlitImage(srcImage: Handle, srcLayout: ImageLayout, dstImage: Handle, dstLayout: ImageLayout, blit: Blit)
    | BeginRenderPass(renderPass: Handle, framebuffer: Handle, renderArea: Extent, contents: SubpassContents)
    | ExecuteCommands(buffers: seq<Handle>)
    | EndRenderPass
    | BindPipeline(pipeline: Handle)
    | BindVertexBuffer(buffer: Handle)
    | BindIndexBuffer(buffer: Handle)
    | BindDescriptorSet(layout: Handle, descriptorSet: Handle)
    | PushConstants(layout: Handle, stage: ShaderStage, offset: nat, size: nat)
    | DrawIndexed(indexCount: nat)

  /** What a creation call was asked to create. */
  datatype CreateInfo =
    | BufferInfo(size: nat, usage: Flags)
    | MemoryInfo(allocationSize: nat, memoryTypeIndex: nat)
    | FramebufferInfo(renderPass: Handle, attachments: seq<Handle>, width: nat, height: nat, layers: nat)
    | LayoutInfo(bindings: seq<LayoutBinding>)
    | PoolInfo(poolSizes: seq<PoolSize>, maxSets: nat)
    | CommandPoolInfo(resetCommandBuffer: bool, queueFamily: nat)
    | ObjectInfo(kind: Kind)

  function KindOf(info: CreateInfo): Kind {
    match info
    case BufferInfo(_, _) => Buffer
    case MemoryInfo(_, _) => Memory
    case FramebufferInfo(_, _, _, _, _) => Framebuffer
    case LayoutInfo(_) => DescriptorSetLayout
    case PoolInfo(_, _) => DescriptorPool
    case CommandPoolInfo(_, _) => CommandPool
    case ObjectInfo(k) => k
  }

  /** One API call, as it appears in the device's log. */
  datatype Op =
    | Created(handle: Handle, info: CreateInfo)
    | Destroyed(kind: Kind, handle: Handle)
    | CommandBuffersAllocated(level: CommandBufferLevel, buffers: seq<Handle>)
    | CommandBuffersFreed(buffers: seq<Handle>)
    | DescriptorSetsAllocated(pool: Handle, layouts: seq<Handle>, sets: seq<Handle>)
    | SwapchainImagesObtained(swapchain: Handle, images: seq<Handle>)
    | BindBufferMemory(buffer: Handle, memory: Handle, offset: nat)
    | MapMemory(memory: Handle, offset: nat, size: nat)
    | UnmapMemory(memory: Handle)
    | DescriptorWritten(descriptorSet: Handle, binding: nat, descriptorType: DescriptorType, buffer: Handle, offset: nat, range: nat)
    | BeginCommandBuffer(buffer: Handle, usage: CommandBufferUsage)
    | EndCommandBuffer(buffer: Handle)
    | ResetCommandBuffer(buffer: Handle)
    | WaitForFences(fences: seq<Handle>)
    | ResetFences(fences: seq<Handle>)
    | AcquireNextImage(swapchain: Handle, semaphore: Handle)
    | QueueSubmit(queue: Queue, waitSemaphore: Handle, buffer: Handle, commands: seq<Cmd>,
                  signalSemaphore: Handle, fence: Handle)
    | QueuePresent(queue: Queue, waitSemaphore: Handle, swapchain: Handle, imageIndex: nat)
    | QueueWaitIdle(queue: Queue)
    | DeviceWaitIdle

  /** The calls that belong to the per-frame acquire -> submit -> present cycle, as opposed to
      resource setup and teardown: fence waits and resets, acquire, present, and a submission
      that signals a fence. */
  predicate FrameOp(op: Op) {
    op.WaitForFences? || op.ResetFences? || op.AcquireNextImage? || op.QueuePresent?
    || (op.QueueSubmit? && op.fence != NULL)
  }

  /** Every call logged from position `from` on is setup or teardown work. */
  ghost predicate NoFrameOpsSince(log: seq<Op>, from: nat) {
    from <= |log| && forall i | from <= i < |log| :: !FrameOp(log[i])
  }

  /** One destroy call per handle of `hs`, in order. */
  function Destroys(kind: Kind, hs: seq<Handle>): (ops: seq<Op>)
    ensures |ops| == |hs| && forall i | 0 <= i < |hs| :: ops[i] == Destroyed(kind, hs[i])
  {
    if hs == [] then [] else Destroys(kind, hs[..|hs| - 1]) + [Destroyed(kind, hs[|hs| - 1])]
  }

  /** One creation call per handle of `hs`, in order, all with the same `info`. */
  function Creations(hs: seq<Handle>, info: CreateInfo): (ops: seq<Op>)
    ensures |ops| == |hs| && forall i | 0 <= i < |hs| :: ops[i] == Created(hs[i], info)
  {
    if hs == [] then [] else Creations(hs[..|hs| - 1], info) + [Created(hs[|hs| - 1], info)]
  }

  /** The handles occurring in `hs`. */
  function Elems(hs: seq<Handle>): set<Handle> {
    if hs == [] then {} else Elems(hs[..|hs| - 1]) + {hs[|hs| - 1]}
  }

  lemma {:induction false} ElemsMembers(hs: seq<Handle>, h: Handle)
    ensures h in Elems(hs) <==> h in hs
  {
    if hs != [] {
      ElemsMembers(hs[..|hs| - 1], h);
      assert hs == hs[..|hs| - 1] + [hs[|hs| - 1]];
    }
  }

  lemma ElemsAppend(hs: seq<Handle>, h: Handle)
    ensures Elems(hs + [h]) == Elems(hs) + {h}
  {
    assert (hs + [h])[..|hs|] == hs;
  }

  /** `count` consecutive ids starting at `first`. */
  function IdRange(first: nat, count: nat): (r: seq<Handle>)
    ensures |r| == count
    ensures forall i | 0 <= i < count :: r[i] == first + i
  {
    if count == 0 then [] else IdRange(first, count - 1) + [first + count - 1]
  }

  /** The abstract device.  Handles are issued in increasing order from `next`. */
  class Gpu {
    /** Memory properties of the selected physical device. */
    const memoryProperties: MemoryProperties
    /** The memory types the device allows for buffers. */
    const bufferMemoryTypeBits: Flags

    var live: set<Handle>
    var next: nat
    /** Non-null handles passed to a destroy call while not live (double destroys). */
    var invalidFrees: set<Handle>
    var log: seq<Op>
    var recording: map<Handle, seq<Cmd>>
    /** How many calls of the acquire -> submit -> present cycle (`FrameOp`) have been made;
        only `FrameCall` makes them. */
    ghost var frameCalls: nat

    ghost predicate Valid()
      reads this
    {
      0 < next && (forall h | h in live :: NULL < h < next) && WellFormedMemory(memoryProperties)
    }

    constructor (memory: MemoryProperties, memoryTypeBits: Flags)
      requires WellFormedMemory(memory)
      ensures Valid()
      ensures memoryProperties == memory && bufferMemoryTypeBits == memoryTypeBits
      ensures live == {} && invalidFrees == {} && log == [] && recording == map[] && frameCalls == 0
    {
      memoryProperties, bufferMemoryTypeBits := memory, memoryTypeBits;
      live, next, invalidFrees, log, recording := {}, 1, {}, [], map[];
      frameCalls := 0;
    }

    /** The memory requirements reported for a buffer of `size` bytes (alignment padding is
        not modelled). */
    function BufferRequirements(size: nat): MemoryRequirements {
      MemoryRequirements(size, bufferMemoryTypeBits)
    }

    /** Commands recorded into `cb` since it was last begun or reset. */
    function Contents(cb: Handle): seq<Cmd>
      reads this
    {
      if cb in recording then recording[cb] else []
    }

    method Create(info: CreateInfo) returns (h: Handle)
      requires Valid()
      modifies this`live, this`next, this`log
      ensures Valid()
      ensures h == old(next) && next == old(next) + 1
      ensures live == old(live) + {h} && h !in old(live)
      ensures log == old(log) + [Created(h, info)]
    {
      h := next;
      next := next + 1;
      live := live + {h};
      log := log + [Created(h, info)];
    }

    /** Creates `count` objects alike, one call each. */
    method CreateEach(info: CreateInfo, count: nat) returns (hs: seq<Handle>)
      requires Valid()
      modifies this`live, this`next, this`log
      ensures Valid()
      ensures hs == IdRange(old(next), count) && next == old(next) + count
      ensures live == old(live) + Elems(hs)
      ensures log == old(log) + Creations(hs, info)
    {
      hs := IdRange(next, count);
      forall h | h in Elems(hs)
        ensures NULL < h < next + count
      {
        ElemsMembers(hs, h);
      }
      live := live + Elems(hs);
      next := next + count;
      log := log + Creations(hs, info);
    }

    /** Destroys (or frees) `h`.  Destroying the null handle is a no-op; destroying a non-null
        handle that is not live is recorded in `invalidFrees`. */
    method Destroy(kind: Kind, h: Handle)
      requires Valid()
      modifies this`live, this`invalidFrees, this`log
      ensures Valid()
      ensures live == old(live) - {h}
      ensures invalidFrees == if h != NULL && h !in old(live) then old(invalidFrees) + {h} else old(invalidFrees)
      ensures log == old(log) + [Destroyed(kind, h)]
    {
      if h != NULL && h !in live {
        invalidFrees := invalidFrees + {h};
      }
      live := live - {h};
      log := log + [Destroyed(kind, h)];
    }

    /** Destroys each handle of `hs` in order, one call each. */
    method DestroyEach(kind: Kind, hs: seq<Handle>)
      requires Valid()
      modifies this`live, this`invalidFrees, this`log
      ensures Valid()
      ensures live == old(live) - Elems(hs)
      ensures old(invalidFrees) <= invalidFrees
      ensures log == old(log) + Destroys(kind, hs)
    {
      var i := 0;
      while i < |hs|
        invariant 0 <= i <= |hs| && Valid()
        invariant live == old(live) - Elems(hs[..i])
        invariant old(invalidFrees) <= invalidFrees
        invariant log == old(log) + Destroys(kind, hs[..i])
      {
        Destroy(kind, hs[i]);
        assert hs[..i + 1][..i] == hs[..i];
        i := i + 1;
      }
      assert hs[..i] == hs;
    }

    method AllocateCommandBuffers(level: CommandBufferLevel, count: nat) returns (hs: seq<Handle>)
      requires Valid()
      modifies this`live, this`next, this`log
      ensures Valid()
      ensures hs == IdRange(old(next), count) && next == old(next) + count
      ensures live == old(live) + Elems(hs)
      ensures log == old(log) + [CommandBuffersAllocated(level, hs)]
    {
      hs := IdRange(next, count);
      forall h | h in Elems(hs)
        ensures NULL < h < next + count
      {
        ElemsMembers(hs, h);
      }
      live := live + Elems(hs);
      next := next + count;
      log := log + [CommandBuffersAllocated(level, hs)];
    }

    method FreeCommandBuffers(hs: seq<Handle>)
      requires Valid()
      modifies this`live, this`log
      ensures Valid()
      ensures live == old(live) - Elems(hs)
      ensures log == old(log) + [CommandBuffersFreed(hs)]
    {
      live := live - Elems(hs);
      log := log + [CommandBuffersFreed(hs)];
    }

    /** Descriptor sets belong to their pool and are released with it, so they do not enter
        the ledger. */
    method AllocateDescriptorSets(pool: Handle, layouts: seq<Handle>) returns (sets: seq<Handle>)
      requires Valid()
      modifies this`next, this`log
      ensures Valid()
      ensures sets == IdRange(old(next), |layouts|) && next == old(next) + |layouts|
      ensures log == old(log) + [DescriptorSetsAllocated(pool, layouts, sets)]
    {
      sets := IdRange(next, |layouts|);
      next := next + |layouts|;
      log := log + [DescriptorSetsAllocated(pool, layouts, sets)];
    }

    /** Swapchain images belong to their swapchain and are released with it. */
    method GetSwapchainImages(swapchain: Handle, count: nat) returns (images: seq<Handle>)
      requires Valid()
      modifies this`next, this`log
      ensures Valid()
      ensures images == IdRange(old(next), count) && next == old(next) + count
      ensures log == old(log) + [SwapchainImagesObtained(swapchain, images)]
    {
      images := IdRange(next, count);
      next := next + count;
      log := log + [SwapchainImagesObtained(swapchain, images)];
    }

    /** Any other setup or teardown call that neither creates nor destroys a handle nor
        touches a recording. */
    method Call(op: Op)
      requires !FrameOp(op)
      modifies this`log
      ensures log == old(log) + [op]
    {
      log := log + [op];
    }

    /** A call of the frame cycle. */
    method FrameCall(op: Op)
      requires FrameOp(op)
      modifies this`log, this`frameCalls
      ensures log == old(log) + [op] && frameCalls == old(frameCalls) + 1
    {
      log := log + [op];
      frameCalls := frameCalls + 1;
    }

    method Begin(cb: Handle, usage: CommandBufferUsage)
      modifies this`log, this`recording
      ensures recording == old(recording)[cb := []]
      ensures log == old(log) + [BeginCommandBuffer(cb, usage)]
    {
      recording := recording[cb := []];
      log := log + [BeginCommandBuffer(cb, usage)];
    }

    method Reset(cb: Handle)
      modifies this`log, this`recording
      ensures recording == old(recording)[cb := []]
      ensures log == old(log) + [ResetCommandBuffer(cb)]
    {
      recording := recording[cb := []];
      log := log + [ResetCommandBuffer(cb)];
    }

    method Record(cb: Handle, cmd: Cmd)
      modifies this`recording
      ensures recording == old(recording)[cb := old(Contents(cb)) + [cmd]]
      ensures Contents(cb) == old(Contents(cb)) + [cmd]
    {
      recording := recording[cb := Contents(cb) + [cmd]];
    }

    method End(cb: Handle)
      modifies this`log
      ensures log == old(log) + [EndCommandBuffer(cb)]
    {
      log := log + [EndCommandBuffer(cb)];
    }

    /** Submits `cb` alone without a fence; the log keeps the commands it held at submission. */
    method Submit(queue: Queue, waitSemaphore: Handle, cb: Handle, signalSemaphore: Handle)
      modifies this`log
      ensures log == old(log) + [QueueSubmit(queue, waitSemaphore, cb, Contents(cb), signalSemaphore, NULL)]
    {
      log := log + [QueueSubmit(queue, waitSemaphore, cb, Contents(cb), signalSemaphore, NULL)];
    }
  }
}
