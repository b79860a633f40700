/** Vertex layout, memory-type selection, buffer creation and the staged upload of the vertex
    and index lists (pipeline/vertex.rs). */
module VertexBuffers {
  import opened Vk
  import opened AppState
  import opened Buffers

  // ---------------------------------------------------------------- vertex layout

  /** `size_of` the float vectors and of the `#[repr(C)]` vertex {pos: Vec3, color: Vec3,
      tex_coord: Vec2}: three 4-byte-aligned fields, no padding. */
  const VEC2_SIZE: nat := 8
  const VEC3_SIZE: nat := 12
  const VERTEX_SIZE: nat := VEC3_SIZE + VEC3_SIZE + VEC2_SIZE
  /** `size_of::<u32>()`, the size of one index. */
  const INDEX_SIZE: nat := 4

  datatype VertexFormat = R32G32B32Sfloat | R32G32Sfloat
  datatype InputRate = PerVertex | PerInstance
  datatype BindingDescription = BindingDescription(binding: nat, stride: nat, inputRate: InputRate)
  datatype AttributeDescription = AttributeDescription(binding: nat, location: nat, format: VertexFormat, offset: nat)

  /** Bytes read by an attribute of the given format. */
  function FormatSize(f: VertexFormat): nat {
    match f
    case R32G32B32Sfloat => 12
    case R32G32Sfloat => 8
  }

  /** `Vertex::binding_description`: binding 0, one vertex per stride. */
  function VertexBindingDescription(): (r: BindingDescription)
    ensures r.binding == 0 && r.stride == VERTEX_SIZE == 32 && r.inputRate == PerVertex
  {
    BindingDescription(0, VERTEX_SIZE, PerVertex)
  }

  /** `Vertex::attribute_descriptions`: position, color and texture coordinate at locations
      0, 1, 2 of binding 0, each inside the stride and none overlapping the next. */
  function VertexAttributeDescriptions(): (r: seq<AttributeDescription>)
    ensures |r| == 3
    ensures forall i | 0 <= i < 3 :: r[i].binding == VertexBindingDescription().binding && r[i].location == i
    ensures r[0].offset == 0 && r[1].offset == 12 && r[2].offset == 24
    ensures forall i | 0 <= i < 3 :: r[i].offset + FormatSize(r[i].format) <= VertexBindingDescription().stride
    ensures forall i, j | 0 <= i < j < 3 :: r[i].offset + FormatSize(r[i].format) <= r[j].offset
  {
    var pos := AttributeDescription(0, 0, R32G32B32Sfloat, 0);
    var color := AttributeDescription(0, 1, R32G32B32Sfloat, VEC3_SIZE);
    var texCoord := AttributeDescription(0, 2, R32G32Sfloat, VEC3_SIZE + VEC3_SIZE);
    [pos, color, texCoord]
  }

  // ---------------------------------------------------------------- memory types

  const MEMORY_PROPERTY_DEVICE_LOCAL: Flags := 0x1
  const MEMORY_PROPERTY_HOST_VISIBLE: Flags := 0x2
  const MEMORY_PROPERTY_HOST_COHERENT: Flags := 0x4

  const BUFFER_USAGE_TRANSFER_SRC: Flags := 0x1
  const BUFFER_USAGE_TRANSFER_DST: Flags := 0x2
  const BUFFER_USAGE_UNIFORM_BUFFER: Flags := 0x10
  const BUFFER_USAGE_INDEX_BUFFER: Flags := 0x40
  const BUFFER_USAGE_VERTEX_BUFFER: Flags := 0x80

  /** Memory type `i` may back the resource (bit `i` of its `memoryTypeBits` is set) and has
      every requested property flag. */
  predicate MemoryTypeSuitable(p: MemoryProperties, properties: Flags, req: MemoryRequirements, i: nat)
    requires WellFormedMemory(p) && i < p.memoryTypeCount
  {
    req.memoryTypeBits & ((1 as bv32) << i) != 0 && Contains(p.memoryTypes[i].propertyFlags, properties)
  }

  /** First suitable type index at or after `from` (the `find` over `0..memory_type_count`). */
  function FindMemoryType(p: MemoryProperties, properties: Flags, req: MemoryRequirements, from: nat): (r: Option<nat>)
    requires WellFormedMemory(p) && from <= p.memoryTypeCount
    decreases p.memoryTypeCount - from
    ensures r.Some? ==> from <= r.value < p.memoryTypeCount && MemoryTypeSuitable(p, properties, req, r.value)
    ensures r.Some? ==> forall j | from <= j < r.value :: !MemoryTypeSuitable(p, properties, req, j)
    ensures r.None? <==> forall j | from <= j < p.memoryTypeCount :: !MemoryTypeSuitable(p, properties, req, j)
  {
    if from == p.memoryTypeCount then None
    else if MemoryTypeSuitable(p, properties, req, from) then Some(from)
    else FindMemoryType(p, properties, req, from + 1)
  }

  /** `get_memory_type_index`: the smallest suitable memory type index, or an error when no
      type below `memoryTypeCount` is suitable. */
  function MemoryTypeIndex(p: MemoryProperties, properties: Flags, req: MemoryRequirements): (r: Result<nat>)
    requires WellFormedMemory(p)
    ensures r.Ok? ==> r.value < p.memoryTypeCount && MemoryTypeSuitable(p, properties, req, r.value)
    ensures r.Ok? ==> forall j | 0 <= j < r.value :: !MemoryTypeSuitable(p, properties, req, j)
    ensures r.Err? <==> forall j | 0 <= j < p.memoryTypeCount :: !MemoryTypeSuitable(p, properties, req, j)
    ensures r.Err? ==> r.error == NoSuitableMemoryType
  {
    match FindMemoryType(p, properties, req, 0)
    case Some(i) => Ok(i)
    case None => Err(NoSuitableMemoryType)
  }

  // ---------------------------------------------------------------- buffers

  /** The calls of a successful `create_buffer`. */
  function BufferCreation(buffer: Handle, memory: Handle, size: nat, usage: Flags,
                          allocationSize: nat, memoryTypeIndex: nat): seq<Op> {
    [Created(buffer, BufferInfo(size, usage)),
     Created(memory, MemoryInfo(allocationSize, memoryTypeIndex)),
     BindBufferMemory(buffer, memory, 0)]
  }

  /** Allocation size and memory type index `create_buffer` picks: the size the device
      requires for the buffer and the first suitable memory type, when there is one. */
  function Allocation(gpu: Gpu, size: nat, usage: Flags, properties: Flags): (r: Option<(nat, nat)>)
    requires WellFormedMemory(gpu.memoryProperties)
    ensures var req := gpu.BufferRequirements(size);
            var index := MemoryTypeIndex(gpu.memoryProperties, properties, req);
            && (r.None? <==> index.Err?)
            && (r.Some? ==> r.value == (req.size, index.value))
  {
    var req := gpu.BufferRequirements(size);
    match MemoryTypeIndex(gpu.memoryProperties, properties, req)
    case Ok(i) => Some((req.size, i))
    case Err(_) => None
  }

  /** Creates a buffer, allocates exactly the size the device requires for it from the first
      suitable memory type, and binds the memory at offset 0.  When no memory type is suitable
      the error is returned and the buffer just created stays live (it is never destroyed). */
  method CreateBuffer(gpu: Gpu, size: nat, usage: Flags, properties: Flags) returns (r: Result<(Handle, Handle)>)
    requires gpu.Valid()
    modifies gpu`live, gpu`next, gpu`log
    ensures gpu.Valid()
    ensures old(gpu.live) <= gpu.live
    ensures var alloc := Allocation(gpu, size, usage, properties);
            && (r.Err? <==> alloc.None?)
            && (r.Err? ==> && r.error == NoSuitableMemoryType
                           && gpu.next == old(gpu.next) + 1
                           && gpu.live == old(gpu.live) + {old(gpu.next)}
                           && gpu.log == old(gpu.log) + [Created(old(gpu.next), BufferInfo(size, usage))])
            && (r.Ok? ==> && r.value == (old(gpu.next), old(gpu.next) + 1)
                          && gpu.next == old(gpu.next) + 2
                          && gpu.live == old(gpu.live) + {r.value.0, r.value.1}
                          && gpu.log == old(gpu.log) + BufferCreation(r.value.0, r.value.1, size, usage,
                                                                      alloc.value.0, alloc.value.1))
  {
    var buffer := gpu.Create(BufferInfo(size, usage));
    var requirements := gpu.BufferRequirements(size);
    var index := MemoryTypeIndex(gpu.memoryProperties, properties, requirements);
    if index.Err? {
      return Err(index.error);
    }
    var memory := gpu.Create(MemoryInfo(requirements.size, index.value));
    gpu.Call(BindBufferMemory(buffer, memory, 0));
    r := Ok((buffer, memory));
  }

  /** Copies the first `size` bytes of `source` into `destination` with a one-time command:
      a single region at offset 0 in both. */
  method CopyBuffer(gpu: Gpu, data: AppData, source: Handle, destination: Handle, size: nat)
    requires gpu.Valid()
    modifies gpu`live, gpu`next, gpu`log, gpu`recording
    ensures gpu.Valid()
    ensures gpu.next == old(gpu.next) + 1 && gpu.live == old(gpu.live)
    ensures gpu.log == old(gpu.log) + OneTimeSubmission(old(gpu.next), data.graphicsQueue,
                                                        [Cmd.CopyBuffer(source, destination, [BufferCopy(0, 0, size)])])
  {
    var cb := BeginOnetimeCommand(gpu, data);
    gpu.Record(cb, Cmd.CopyBuffer(source, destination, [BufferCopy(0, 0, size)]));
    assert gpu.Contents(cb) == [Cmd.CopyBuffer(source, destination, [BufferCopy(0, 0, size)])];
    EndOnetimeCommand(gpu, data, cb);
    OneTimeSubmissionIsSetup(cb, data.graphicsQueue, [Cmd.CopyBuffer(source, destination, [BufferCopy(0, 0, size)])], old(gpu.log));
  }

  /** The calls that fill a staging pair `(first, first + 1)`: creation, map and unmap (the
      bytes copied through the mapping are not modelled). */
  function StagingOps(first: Handle, size: nat, allocation: (nat, nat)): seq<Op> {
    BufferCreation(first, first + 1, size, BUFFER_USAGE_TRANSFER_SRC, allocation.0, allocation.1)
    + [MapMemory(first + 1, 0, size), UnmapMemory(first + 1)]
  }

  /** The calls that create the destination pair `(first, first + 1)`, copy the staging
      buffer into it with the one-time command buffer `first + 2`, and release the staging pair. */
  function TransferOps(first: Handle, staging: (Handle, Handle), size: nat, usage: Flags, allocation: (nat, nat),
                       queue: Queue): seq<Op> {
    BufferCreation(first, first + 1, size, BUFFER_USAGE_TRANSFER_DST | usage, allocation.0, allocation.1)
    + OneTimeSubmission(first + 2, queue, [Cmd.CopyBuffer(staging.0, first, [BufferCopy(0, 0, size)])])
    + [Destroyed(Buffer, staging.0), Destroyed(Memory, staging.1)]
  }

  /** The calls of a successful staged upload of `size` bytes into a new device-local buffer
      with the given usage, numbered from `first`: the staging pair, the destination pair of
      the same size, the one-time copy, the release of the staging pair. */
  function StagedUploadOps(first: Handle, size: nat, usage: Flags, staging: (nat, nat), destination: (nat, nat),
                           queue: Queue): seq<Op> {
    StagingOps(first, size, staging) + TransferOps(first + 2, (first, first + 1), size, usage, destination, queue)
  }

  /** The staging half of an upload: a host-visible, host-coherent transfer-source buffer of
      `size` bytes, mapped and unmapped again (the bytes written through the mapping are not
      modelled). */
  method FillStagingBuffer(gpu: Gpu, size: nat) returns (r: Result<(Handle, Handle)>)
    requires gpu.Valid()
    modifies gpu`live, gpu`next, gpu`log
    ensures gpu.Valid()
    ensures old(gpu.live) <= gpu.live
    ensures var alloc := Allocation(gpu, size, BUFFER_USAGE_TRANSFER_SRC,
                                    MEMORY_PROPERTY_HOST_COHERENT | MEMORY_PROPERTY_HOST_VISIBLE);
            && (r.Err? <==> alloc.None?)
            && (r.Err? ==> r.error == NoSuitableMemoryType)
            && (r.Ok? ==> && r.value == (old(gpu.next), old(gpu.next) + 1)
                          && gpu.next == old(gpu.next) + 2
                          && gpu.live == old(gpu.live) + {r.value.0, r.value.1}
                          && gpu.log == old(gpu.log) + StagingOps(r.value.0, size, alloc.value))
  {
    r := CreateBuffer(gpu, size, BUFFER_USAGE_TRANSFER_SRC, MEMORY_PROPERTY_HOST_COHERENT | MEMORY_PROPERTY_HOST_VISIBLE);
    if r.Err? {
      return;
    }
    gpu.Call(MapMemory(r.value.1, 0, size));
    gpu.Call(UnmapMemory(r.value.1));
  }

  /** The transfer half of an upload: copies the staging buffer into the destination and
      destroys the staging buffer and its memory. */
  method CopyFromStaging(gpu: Gpu, data: AppData, staging: (Handle, Handle), destination: Handle, size: nat)
    requires gpu.Valid() && staging.0 in gpu.live && staging.1 in gpu.live && staging.0 != staging.1
    modifies gpu`live, gpu`next, gpu`log, gpu`recording, gpu`invalidFrees
    ensures gpu.Valid() && gpu.invalidFrees == old(gpu.invalidFrees)
    ensures gpu.next == old(gpu.next) + 1
    ensures gpu.live == old(gpu.live) - {staging.0, staging.1}
    ensures gpu.log == old(gpu.log)
                       + OneTimeSubmission(old(gpu.next), data.graphicsQueue,
                                           [Cmd.CopyBuffer(staging.0, destination, [BufferCopy(0, 0, size)])])
                       + [Destroyed(Buffer, staging.0), Destroyed(Memory, staging.1)]
  {
    CopyBuffer(gpu, data, staging.0, destination, size);
    gpu.Destroy(Buffer, staging.0);
    gpu.Destroy(Memory, staging.1);
  }

  /** The device-local half of an upload: creates the destination buffer and, when that
      succeeds, fills it from the staging pair, which is released. */
  method UploadFromStaging(gpu: Gpu, data: AppData, staging: (Handle, Handle), size: nat, usage: Flags)
    returns (r: Result<(Handle, Handle)>)
    requires gpu.Valid() && staging.0 in gpu.live && staging.1 in gpu.live && staging.0 != staging.1
    modifies gpu`live, gpu`next, gpu`log, gpu`recording, gpu`invalidFrees
    ensures gpu.Valid() && gpu.invalidFrees == old(gpu.invalidFrees)
    ensures var alloc := Allocation(gpu, size, BUFFER_USAGE_TRANSFER_DST | usage, MEMORY_PROPERTY_DEVICE_LOCAL);
            && (r.Err? <==> alloc.None?)
            && (r.Err? ==> && r.error == NoSuitableMemoryType
                           && gpu.next == old(gpu.next) + 1
                           && gpu.live == old(gpu.live) + {old(gpu.next)}
                           && gpu.log == old(gpu.log) + [Created(old(gpu.next), BufferInfo(size, BUFFER_USAGE_TRANSFER_DST | usage))])
            && (r.Ok? ==> && r.value == (old(gpu.next), old(gpu.next) + 1)
                          && gpu.next == old(gpu.next) + 3
                          && gpu.live == old(gpu.live) - {staging.0, staging.1} + {r.value.0, r.value.1}
                          && gpu.log == old(gpu.log) + TransferOps(r.value.0, staging, size, usage, alloc.value,
                                                                   data.graphicsQueue))
  {
    r := CreateBuffer(gpu, size, BUFFER_USAGE_TRANSFER_DST | usage, MEMORY_PROPERTY_DEVICE_LOCAL);
    if r.Err? {
      return;
    }
    CopyFromStaging(gpu, data, staging, r.value.0, size);
  }

  /** The staged upload shared by `create_index_buffer` and `create_vertex_buffer`. */
  method StagedUpload(gpu: Gpu, data: AppData, size: nat, usage: Flags) returns (r: Result<(Handle, Handle)>)
    requires gpu.Valid()
    modifies gpu`live, gpu`next, gpu`log, gpu`recording, gpu`invalidFrees
    ensures gpu.Valid() && gpu.invalidFrees == old(gpu.invalidFrees)
    ensures old(gpu.live) <= gpu.live
    ensures var staging := Allocation(gpu, size, BUFFER_USAGE_TRANSFER_SRC,
                                      MEMORY_PROPERTY_HOST_COHERENT | MEMORY_PROPERTY_HOST_VISIBLE);
            var destination := Allocation(gpu, size, BUFFER_USAGE_TRANSFER_DST | usage, MEMORY_PROPERTY_DEVICE_LOCAL);
            && (r.Ok? <==> staging.Some? && destination.Some?)
            && (r.Err? ==> r.error == NoSuitableMemoryType)
            && (r.Ok? ==> && r.value == (old(gpu.next) + 2, old(gpu.next) + 3)
                          && gpu.live == old(gpu.live) + {r.value.0, r.value.1}
                          && gpu.next == old(gpu.next) + 5
                          && gpu.log == old(gpu.log) + StagedUploadOps(old(gpu.next), size, usage, staging.value,
                                                                       destination.value, data.graphicsQueue))
  {
    var stagingResult := FillStagingBuffer(gpu, size);
    if stagingResult.Err? {
      return Err(stagingResult.error);
    }
    ghost var live1, log1 := gpu.live, gpu.log;
    r := UploadFromStaging(gpu, data, stagingResult.value, size, usage);
    if r.Err? {
      return;
    }
    UploadComposes(old(gpu.live), old(gpu.next), old(gpu.log), live1, log1, gpu.live, gpu.log, size, usage,
                   Allocation(gpu, size, BUFFER_USAGE_TRANSFER_SRC,
                              MEMORY_PROPERTY_HOST_COHERENT | MEMORY_PROPERTY_HOST_VISIBLE).value,
                   Allocation(gpu, size, BUFFER_USAGE_TRANSFER_DST | usage, MEMORY_PROPERTY_DEVICE_LOCAL).value,
                   data.graphicsQueue);
  }

  /** The two halves of a successful upload together leave exactly the destination pair live
      and log the calls of `StagedUploadOps`. */
  lemma UploadComposes(live0: set<Handle>, next0: nat, log0: seq<Op>, live1: set<Handle>, log1: seq<Op>,
                       live2: set<Handle>, log2: seq<Op>, size: nat, usage: Flags,
                       staging: (nat, nat), destination: (nat, nat), queue: Queue)
    requires forall h | h in live0 :: h < next0
    requires live1 == live0 + {next0, next0 + 1} && log1 == log0 + StagingOps(next0, size, staging)
    requires live2 == live1 - {next0, next0 + 1} + {next0 + 2, next0 + 3}
    requires log2 == log1 + TransferOps(next0 + 2, (next0, next0 + 1), size, usage, destination, queue)
    ensures live2 == live0 + {next0 + 2, next0 + 3}
    ensures log2 == log0 + StagedUploadOps(next0, size, usage, staging, destination, queue)
  {
    assert next0 !in live0 && next0 + 1 !in live0;
  }

  /** A staged upload makes no frame-cycle call. */
  lemma StagedUploadIsSetup(first: Handle, size: nat, usage: Flags, staging: (nat, nat), destination: (nat, nat),
                            queue: Queue, before: seq<Op>)
    ensures NoFrameOpsSince(before + StagedUploadOps(first, size, usage, staging, destination, queue), |before|)
  {
    var ops := before + StagedUploadOps(first, size, usage, staging, destination, queue);
    var copy := [Cmd.CopyBuffer(first, first + 2, [BufferCopy(0, 0, size)])];
    OneTimeSubmissionIsSetup(first + 4, queue, copy, []);
    var tail := StagedUploadOps(first, size, usage, staging, destination, queue);
    forall i | |before| <= i < |ops| ensures !FrameOp(ops[i]) {
      var k := i - |before|;
      assert ops[i] == tail[k];
      if 8 <= k < 14 {
        assert tail[k] == OneTimeSubmission(first + 4, queue, copy)[k - 8];
      }
    }
  }

  /** `create_index_buffer`: uploads 4 bytes per index and stores the destination pair. */
  method CreateIndexBuffer(gpu: Gpu, data: AppData) returns (r: Outcome)
    requires gpu.Valid()
    modifies gpu`live, gpu`next, gpu`log, gpu`recording, gpu`invalidFrees, data`indexBuffer, data`indexBufferMemory
    ensures gpu.Valid() && gpu.invalidFrees == old(gpu.invalidFrees)
    ensures old(gpu.live) <= gpu.live
    ensures var size := INDEX_SIZE * data.indexCount;
            var staging := Allocation(gpu, size, BUFFER_USAGE_TRANSFER_SRC,
                                      MEMORY_PROPERTY_HOST_COHERENT | MEMORY_PROPERTY_HOST_VISIBLE);
            var destination := Allocation(gpu, size, BUFFER_USAGE_TRANSFER_DST | BUFFER_USAGE_INDEX_BUFFER,
                                          MEMORY_PROPERTY_DEVICE_LOCAL);
            && (r == Pass <==> staging.Some? && destination.Some?)
            && (r.Fail? ==> && r.error == NoSuitableMemoryType
                            && data.indexBuffer == old(data.indexBuffer)
                            && data.indexBufferMemory == old(data.indexBufferMemory))
            && (r == Pass ==> && data.indexBuffer == old(gpu.next) + 2
                              && data.indexBufferMemory == old(gpu.next) + 3
                              && gpu.live == old(gpu.live) + {data.indexBuffer, data.indexBufferMemory}
                              && gpu.next == old(gpu.next) + 5
                              && gpu.log == old(gpu.log) + StagedUploadOps(old(gpu.next), size, BUFFER_USAGE_INDEX_BUFFER,
                                              staging.value, destination.value, data.graphicsQueue))
  {
    var result := StagedUpload(gpu, data, INDEX_SIZE * data.indexCount, BUFFER_USAGE_INDEX_BUFFER);
    if result.Err? {
      return Fail(result.error);
    }
    data.indexBuffer, data.indexBufferMemory := result.value.0, result.value.1;
    r := Pass;
  }

  /** `create_vertex_buffer`: uploads `size_of::<Vertex>()` bytes per vertex and stores the
      destination pair. */
  method CreateVertexBuffer(gpu: Gpu, data: AppData) returns (r: Outcome)
    requires gpu.Valid()
    modifies gpu`live, gpu`next, gpu`log, gpu`recording, gpu`invalidFrees, data`vertexBuffer, data`vertexBufferMemory
    ensures gpu.Valid() && gpu.invalidFrees == old(gpu.invalidFrees)
    ensures old(gpu.live) <= gpu.live
    ensures var size := VERTEX_SIZE * data.vertexCount;
            var staging := Allocation(gpu, size, BUFFER_USAGE_TRANSFER_SRC,
                                      MEMORY_PROPERTY_HOST_COHERENT | MEMORY_PROPERTY_HOST_VISIBLE);
            var destination := Allocation(gpu, size, BUFFER_USAGE_TRANSFER_DST | BUFFER_USAGE_VERTEX_BUFFER,
                                          MEMORY_PROPERTY_DEVICE_LOCAL);
            && (r == Pass <==> staging.Some? && destination.Some?)
            && (r.Fail? ==> && r.error == NoSuitableMemoryType
                            && data.vertexBuffer == old(data.vertexBuffer)
                            && data.vertexBufferMemory == old(data.vertexBufferMemory))
            && (r == Pass ==> && data.vertexBuffer == old(gpu.next) + 2
                              && data.vertexBufferMemory == old(gpu.next) + 3
                              && gpu.live == old(gpu.live) + {data.vertexBuffer, data.vertexBufferMemory}
                              && gpu.next == old(gpu.next) + 5
                              && gpu.log == old(gpu.log) + StagedUploadOps(old(gpu.next), size, BUFFER_USAGE_VERTEX_BUFFER,
                                              staging.value, destination.value, data.graphicsQueue))
  {
    var result := StagedUpload(gpu, data, VERTEX_SIZE * data.vertexCount, BUFFER_USAGE_VERTEX_BUFFER);
    if result.Err? {
      return Fail(result.error);
    }
    data.vertexBuffer, data.vertexBufferMemory := result.value.0, result.value.1;
    r := Pass;
  }
}
