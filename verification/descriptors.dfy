/** The descriptor-set layout, the per-image uniform buffers, the descriptor pool and sets, and
    the per-frame uniform update (pipeline/descriptors.rs). */
module Descriptors {
  import opened Vk
  import opened AppState
  import opened VertexBuffers

  /** `size_of::<UniformBufferObject>()`: three 4x4 matrices of 4-byte floats. */
  const MAT4_SIZE: nat := 64
  const UBO_SIZE: nat := 3 * MAT4_SIZE

  /** Memory the uniform buffers live in: written by the host without explicit flushes. */
  const UNIFORM_MEMORY: Flags := MEMORY_PROPERTY_HOST_COHERENT | MEMORY_PROPERTY_HOST_VISIBLE

  /** The two bindings of the layout: the uniform buffer for the vertex stage at binding 0
      and the combined image sampler for the fragment stage at binding 1, one descriptor each. */
  function LayoutBindings(): (r: seq<LayoutBinding>)
    ensures |r| == 2
    ensures r[0] == LayoutBinding(0, UniformBufferDescriptor, 1, VertexStage)
    ensures r[1] == LayoutBinding(1, CombinedImageSampler, 1, FragmentStage)
    ensures forall i, j | 0 <= i < j < |r| :: r[i].binding != r[j].binding
  {
    [LayoutBinding(0, UniformBufferDescriptor, 1, VertexStage),
     LayoutBinding(1, CombinedImageSampler, 1, FragmentStage)]
  }

  /** Creates the layout and stores it; a layout stored earlier is not destroyed. */
  method CreateDescriptorSetLayout(gpu: Gpu, data: AppData)
    requires gpu.Valid()
    modifies gpu`live, gpu`next, gpu`log, data`descriptorSetLayout
    ensures gpu.Valid()
    ensures old(gpu.live) <= gpu.live
    ensures data.descriptorSetLayout == old(gpu.next) && gpu.next == old(gpu.next) + 1
    ensures gpu.live == old(gpu.live) + {data.descriptorSetLayout}
    ensures gpu.log == old(gpu.log) + [Created(data.descriptorSetLayout, LayoutInfo(LayoutBindings()))]
  {
    data.descriptorSetLayout := gpu.Create(LayoutInfo(LayoutBindings()));
  }

  /** The calls creating `n` uniform buffers, each pair numbered right after the previous one. */
  function UniformBufferOps(first: Handle, n: nat, allocation: (nat, nat)): (ops: seq<Op>)
    ensures |ops| == 3 * n
  {
    if n == 0 then []
    else UniformBufferOps(first, n - 1, allocation)
         + BufferCreation(first + 2 * (n - 1), first + 2 * (n - 1) + 1, UBO_SIZE, BUFFER_USAGE_UNIFORM_BUFFER,
                          allocation.0, allocation.1)
  }

  /** Entries `3i .. 3i+3` of the uniform-buffer calls create buffer `first + 2i` and bind it to
      memory `first + 2i + 1`. */
  lemma {:induction false} UniformBufferOpsLayout(first: Handle, n: nat, allocation: (nat, nat), i: nat)
    requires i < n
    ensures UniformBufferOps(first, n, allocation)[3 * i .. 3 * i + 3]
            == BufferCreation(first + 2 * i, first + 2 * i + 1, UBO_SIZE, BUFFER_USAGE_UNIFORM_BUFFER,
                              allocation.0, allocation.1)
  {
    var prefix := UniformBufferOps(first, n - 1, allocation);
    if i < n - 1 {
      UniformBufferOpsLayout(first, n - 1, allocation, i);
      assert UniformBufferOps(first, n, allocation)[3 * i .. 3 * i + 3] == prefix[3 * i .. 3 * i + 3];
    }
  }

  /** The handles `first, first + 2, first + 4, ...`, `n` of them. */
  function EveryOther(first: Handle, n: nat): (r: seq<Handle>)
    ensures |r| == n
  {
    if n == 0 then [] else EveryOther(first, n - 1) + [first + 2 * (n - 1)]
  }

  /** Entry `i` of `EveryOther(first, n)` is `first + 2i`: buffer `i` and its memory are
      consecutive handles, and no two buffers share one. */
  lemma {:induction false} EveryOtherAt(first: Handle, n: nat, i: nat)
    requires i < n
    ensures EveryOther(first, n)[i] == first + 2 * i
  {
    if i < n - 1 {
      EveryOtherAt(first, n - 1, i);
    }
  }

  /** One host-visible uniform buffer of `UBO_SIZE` bytes per swapchain image, replacing the
      stored lists.  The memory type chosen is the same for every buffer, so either all are
      created or the first creation fails (leaving its buffer live) and the lists stay empty. */
  method CreateUniformBuffers(gpu: Gpu, data: AppData) returns (r: Outcome)
    requires gpu.Valid()
    modifies gpu`live, gpu`next, gpu`log, data`uniformBuffers, data`uniformBuffersMemory
    ensures gpu.Valid() && old(gpu.live) <= gpu.live
    ensures var n := |data.swapchainImages|;
            var alloc := Allocation(gpu, UBO_SIZE, BUFFER_USAGE_UNIFORM_BUFFER, UNIFORM_MEMORY);
            && (r.Fail? ==> gpu.log == old(gpu.log) + [Created(old(gpu.next), BufferInfo(UBO_SIZE, BUFFER_USAGE_UNIFORM_BUFFER))])
            && (r == Pass <==> n == 0 || alloc.Some?)
            && (r.Fail? ==> && r.error == NoSuitableMemoryType
                            && data.uniformBuffers == [] && data.uniformBuffersMemory == []
                            && gpu.next == old(gpu.next) + 1
                            && gpu.live == old(gpu.live) + {old(gpu.next)})
            && (r == Pass ==> && gpu.next == old(gpu.next) + 2 * n
                              && gpu.live == old(gpu.live) + Elems(data.uniformBuffers) + Elems(data.uniformBuffersMemory)
                              && data.uniformBuffers == EveryOther(old(gpu.next), n)
                              && data.uniformBuffersMemory == EveryOther(old(gpu.next) + 1, n)
                              && (n > 0 ==> gpu.log == old(gpu.log) + UniformBufferOps(old(gpu.next), n, alloc.value)))
  {
    data.uniformBuffers := [];
    data.uniformBuffersMemory := [];
    var ok, buffers, memories := CreateUniformBufferList(gpu, |data.swapchainImages|);
    if !ok {
      return Fail(NoSuitableMemoryType);
    }
    data.uniformBuffers := buffers;
    data.uniformBuffersMemory := memories;
    r := Pass;
  }

  /** The loop of `create_uniform_buffers`: `n` uniform buffers with their memory, stopping at
      the first creation that finds no suitable memory type. */
  method CreateUniformBufferList(gpu: Gpu, n: nat) returns (ok: bool, buffers: seq<Handle>, memories: seq<Handle>)
    requires gpu.Valid()
    modifies gpu`live, gpu`next, gpu`log
    ensures gpu.Valid() && old(gpu.live) <= gpu.live
    ensures var alloc := Allocation(gpu, UBO_SIZE, BUFFER_USAGE_UNIFORM_BUFFER, UNIFORM_MEMORY);
            && (ok <==> n == 0 || alloc.Some?)
            && (!ok ==> && gpu.next == old(gpu.next) + 1
                        && gpu.live == old(gpu.live) + {old(gpu.next)}
                        && gpu.log == old(gpu.log) + [Created(old(gpu.next), BufferInfo(UBO_SIZE, BUFFER_USAGE_UNIFORM_BUFFER))])
            && (ok ==> && gpu.next == old(gpu.next) + 2 * n
                       && gpu.live == old(gpu.live) + Elems(buffers) + Elems(memories)
                       && buffers == EveryOther(old(gpu.next), n)
                       && memories == EveryOther(old(gpu.next) + 1, n)
                       && (n > 0 ==> gpu.log == old(gpu.log) + UniformBufferOps(old(gpu.next), n, alloc.value)))
  {
    ghost var alloc := Allocation(gpu, UBO_SIZE, BUFFER_USAGE_UNIFORM_BUFFER, UNIFORM_MEMORY);
    ghost var allocation := if alloc.Some? then alloc.value else (0, 0);
    ghost var first, before, live0 := gpu.next, gpu.log, gpu.live;
    buffers, memories := [], [];
    var i := 0;
    while i < n
      invariant 0 <= i <= n && gpu.Valid() && live0 <= gpu.live
      invariant i > 0 ==> alloc.Some?
      invariant gpu.next == first + 2 * i
      invariant gpu.live == live0 + Elems(buffers) + Elems(memories)
      invariant buffers == EveryOther(first, i)
      invariant memories == EveryOther(first + 1, i)
      invariant gpu.log == before + UniformBufferOps(first, i, allocation)
    {
      ghost var live, log := gpu.live, gpu.log;
      var created := CreateBuffer(gpu, UBO_SIZE, BUFFER_USAGE_UNIFORM_BUFFER, UNIFORM_MEMORY);
      if created.Err? {
        return false, [], [];
      }
      assert created.value == (first + 2 * i, first + 2 * i + 1);
      UniformBufferStep(first, i, allocation, before, log, gpu.log, buffers, memories);
      LivePairStep(live0, live, gpu.live, buffers, memories, created.value.0, created.value.1);
      buffers := buffers + [created.value.0];
      memories := memories + [created.value.1];
      i := i + 1;
    }
    ok := true;
  }

  /** Creating one more buffer and its memory adds both to the live set and to the lists. */
  lemma LivePairStep(live0: set<Handle>, live1: set<Handle>, live2: set<Handle>,
                     buffers: seq<Handle>, memories: seq<Handle>, buffer: Handle, memory: Handle)
    requires live1 == live0 + Elems(buffers) + Elems(memories)
    requires live2 == live1 + {buffer, memory}
    ensures live2 == live0 + Elems(buffers + [buffer]) + Elems(memories + [memory])
  {
    ElemsAppend(buffers, buffer);
    ElemsAppend(memories, memory);
  }

  /** One more uniform buffer extends both handle lists and the calls by one creation. */
  lemma UniformBufferStep(first: Handle, i: nat, allocation: (nat, nat), before: seq<Op>, log: seq<Op>, after: seq<Op>,
                          buffers: seq<Handle>, memories: seq<Handle>)
    requires buffers == EveryOther(first, i) && memories == EveryOther(first + 1, i)
    requires log == before + UniformBufferOps(first, i, allocation)
    requires after == log + BufferCreation(first + 2 * i, first + 2 * i + 1, UBO_SIZE, BUFFER_USAGE_UNIFORM_BUFFER,
                                           allocation.0, allocation.1)
    ensures buffers + [first + 2 * i] == EveryOther(first, i + 1)
    ensures memories + [first + 2 * i + 1] == EveryOther(first + 1, i + 1)
    ensures after == before + UniformBufferOps(first, i + 1, allocation)
  {
  }

  /** Creating uniform buffers makes no frame-cycle call. */
  lemma {:induction false} UniformBufferOpsAreSetup(first: Handle, n: nat, allocation: (nat, nat), before: seq<Op>)
    ensures NoFrameOpsSince(before + UniformBufferOps(first, n, allocation), |before|)
  {
    if n > 0 {
      var prefix := before + UniformBufferOps(first, n - 1, allocation);
      UniformBufferOpsAreSetup(first, n - 1, allocation, before);
      var ops := before + UniformBufferOps(first, n, allocation);
      assert ops == prefix + BufferCreation(first + 2 * (n - 1), first + 2 * (n - 1) + 1, UBO_SIZE,
                                            BUFFER_USAGE_UNIFORM_BUFFER, allocation.0, allocation.1);
      forall k | |before| <= k < |ops| ensures !FrameOp(ops[k]) {
        if k < |prefix| {
          assert ops[k] == prefix[k];
        }
      }
    }
  }

  /** The pool: one uniform-buffer descriptor per swapchain image and one set per image. */
  method CreateDescriptorPool(gpu: Gpu, data: AppData)
    requires gpu.Valid()
    modifies gpu`live, gpu`next, gpu`log, data`descriptorPool
    ensures gpu.Valid()
    ensures data.descriptorPool == old(gpu.next) && gpu.live == old(gpu.live) + {data.descriptorPool}
    ensures gpu.log == old(gpu.log) + [Created(data.descriptorPool, PoolInfo(PoolSizes(|data.swapchainImages|),
                                                                             |data.swapchainImages|))]
  {
    var n := |data.swapchainImages|;
    data.descriptorPool := gpu.Create(PoolInfo(PoolSizes(n), n));
  }

  /** The pool sizes for `n` images: only uniform-buffer descriptors. */
  function PoolSizes(n: nat): (r: seq<PoolSize>)
    ensures r == [PoolSize(UniformBufferDescriptor, n)]
  {
    [PoolSize(UniformBufferDescriptor, n)]
  }

  /** `vec![h; n]`. */
  function Repeat(h: Handle, n: nat): (r: seq<Handle>)
    ensures |r| == n && forall i | 0 <= i < n :: r[i] == h
  {
    seq(n, _ => h)
  }

  /** The write pointing binding 0 of `descriptorSet` at the whole uniform object in `buffer`. */
  function UniformWrite(descriptorSet: Handle, buffer: Handle): Op {
    DescriptorWritten(descriptorSet, 0, UniformBufferDescriptor, buffer, 0, UBO_SIZE)
  }

  /** Allocates one set per swapchain image, all with the stored layout, and points binding 0
      of set `i` at uniform buffer `i`; binding 1 (the sampler) is never written. */
  method CreateDescriptorSets(gpu: Gpu, data: AppData)
    requires gpu.Valid() && |data.swapchainImages| <= |data.uniformBuffers|
    modifies gpu`next, gpu`log, data`descriptorSets
    ensures gpu.Valid() && gpu.live == old(gpu.live)
    ensures var n := |data.swapchainImages|;
            && data.descriptorSets == IdRange(old(gpu.next), n)
            && |gpu.log| == |old(gpu.log)| + 1 + n
            && gpu.log[..|old(gpu.log)| + 1]
               == old(gpu.log) + [DescriptorSetsAllocated(data.descriptorPool, Repeat(data.descriptorSetLayout, n),
                                                          data.descriptorSets)]
            && forall i | 0 <= i < n ::
                 gpu.log[|old(gpu.log)| + 1 + i] == UniformWrite(data.descriptorSets[i], data.uniformBuffers[i])
  {
    var n := |data.swapchainImages|;
    data.descriptorSets := gpu.AllocateDescriptorSets(data.descriptorPool, Repeat(data.descriptorSetLayout, n));
    ghost var base := gpu.log;
    var i := 0;
    while i < n
      invariant 0 <= i <= n && gpu.Valid() && gpu.live == old(gpu.live) && gpu.next == old(gpu.next) + n
      invariant data.descriptorSets == IdRange(old(gpu.next), n)
      invariant |gpu.log| == |base| + i && base <= gpu.log
      invariant forall k | 0 <= k < i :: gpu.log[|base| + k] == UniformWrite(data.descriptorSets[k], data.uniformBuffers[k])
    {
      gpu.Call(UniformWrite(data.descriptorSets[i], data.uniformBuffers[i]));
      i := i + 1;
    }
    assert gpu.log[..|base|] == base;
  }

  /** Every descriptor write targets a binding the layout declares, with the type it declares,
      and the pool has room for one such descriptor per set. */
  lemma WritesMatchLayoutAndPool(n: nat, descriptorSet: Handle, buffer: Handle)
    ensures var w := UniformWrite(descriptorSet, buffer);
            exists b | b in LayoutBindings() :: b.binding == w.binding && b.descriptorType == w.descriptorType
    ensures var sizes := PoolSizes(n);
            exists p | p in sizes :: p.descriptorType == UniformWrite(descriptorSet, buffer).descriptorType && p.count == n
  {
    assert LayoutBindings()[0] in LayoutBindings();
    assert PoolSizes(n)[0] in PoolSizes(n);
  }

  /** The layout declares a combined-image-sampler binding, but the pool reserves no
      descriptor of that type. */
  lemma PoolLacksSamplerDescriptors(n: nat)
    ensures exists b | b in LayoutBindings() :: b.descriptorType == CombinedImageSampler
    ensures forall p | p in PoolSizes(n) :: p.descriptorType != CombinedImageSampler
  {
    assert LayoutBindings()[1] in LayoutBindings();
  }

  /** Maps the memory of uniform buffer `imageIndex` for the new matrices and unmaps it again
      (the matrices, computed from the elapsed time in floating point, are not modelled). */
  method UpdateUniformBuffer(gpu: Gpu, data: AppData, imageIndex: nat)
    requires imageIndex < |data.uniformBuffersMemory|
    modifies gpu`log
    ensures gpu.log == old(gpu.log) + [MapMemory(data.uniformBuffersMemory[imageIndex], 0, UBO_SIZE),
                                       UnmapMemory(data.uniformBuffersMemory[imageIndex])]
  {
    gpu.Call(MapMemory(data.uniformBuffersMemory[imageIndex], 0, UBO_SIZE));
    gpu.Call(UnmapMemory(data.uniformBuffersMemory[imageIndex]));
  }
}
