/** The application object (app.rs): per-frame command recording, the frame synchronizer,
    swapchain teardown and recreation. */
module Application {
  import opened Vk
  import opened AppState
  import Buffers
  import VertexBuffers
  import Descriptors

  const MAX_FRAMES_IN_FLIGHT: nat := 2

  /** `Vec::resize_with(len, Vec::new)` on the secondary table: truncated to `len` rows, or
      padded with empty rows. */
  function ResizedTable(table: seq<seq<Handle>>, len: nat): (r: seq<seq<Handle>>)
    ensures |r| == len
  {
    if len <= |table| then table[..len] else table + seq(len - |table|, _ => [])
  }

  /** Resizing keeps the rows that fit and pads with empty rows. */
  lemma ResizedTableRows(table: seq<seq<Handle>>, len: nat, j: nat)
    requires j < len
    ensures ResizedTable(table, len)[j] == if j < |table| then table[j] else []
  {
  }

  /** Row `imageIndex` of `table` once resized to `imageIndex + 1` rows. */
  function RowOf(table: seq<seq<Handle>>, imageIndex: nat): (row: seq<Handle>)
    ensures row == if imageIndex < |table| then table[imageIndex] else []
  {
    ResizedTableRows(table, imageIndex + 1, imageIndex);
    ResizedTable(table, imageIndex + 1)[imageIndex]
  }

  /** How many buffers one lookup of model `modelIndex` allocates for a row holding `row`. */
  function Added(row: seq<Handle>, modelIndex: nat): nat {
    if modelIndex < |row| then 0 else modelIndex + 1 - |row|
  }

  /** The secondary table after one lookup of model `modelIndex` of image `imageIndex`, when
      fresh buffers are numbered from `first`: the table is resized to `imageIndex + 1` rows
      and row `imageIndex` is extended with fresh buffers until it has an entry `modelIndex`. */
  function GrownTable(table: seq<seq<Handle>>, imageIndex: nat, modelIndex: nat, first: Handle): seq<seq<Handle>> {
    var row := RowOf(table, imageIndex);
    ResizedTable(table, imageIndex + 1)[imageIndex := row + IdRange(first, Added(row, modelIndex))]
  }

  /** One allocation call of a single secondary buffer per fresh id `first .. first + count`. */
  function SecondaryAllocations(first: Handle, count: nat): (ops: seq<Op>)
    ensures |ops| == count
  {
    if count == 0 then []
    else SecondaryAllocations(first, count - 1) + [CommandBuffersAllocated(Secondary, [first + count - 1])]
  }

  /** One more allocation extends the row and the calls by the next fresh id. */
  lemma AllocationStep(row: seq<Handle>, log0: seq<Op>, first: Handle, count: nat)
    ensures row + IdRange(first, count) + [first + count] == row + IdRange(first, count + 1)
    ensures log0 + SecondaryAllocations(first, count) + [CommandBuffersAllocated(Secondary, [first + count])]
            == log0 + SecondaryAllocations(first, count + 1)
  {
  }

  /** One lookup keeps the rows before `imageIndex` that existed, gives the missing ones no
      buffers, drops the rows after `imageIndex`, and only appends to row `imageIndex`, which
      ends with an entry for `modelIndex`. */
  lemma GrownTableProperties(table: seq<seq<Handle>>, imageIndex: nat, modelIndex: nat, first: Handle)
    ensures var grown := GrownTable(table, imageIndex, modelIndex, first);
            && |grown| == imageIndex + 1
            && (forall j | 0 <= j < imageIndex && j < |table| :: grown[j] == table[j])
            && (forall j | |table| <= j < imageIndex :: grown[j] == [])
            && modelIndex < |grown[imageIndex]|
            && (imageIndex < |table| ==> table[imageIndex] <= grown[imageIndex])
            && (imageIndex >= |table| ==> grown[imageIndex] == IdRange(first, modelIndex + 1))
  {
    var row := RowOf(table, imageIndex);
    var grown := GrownTable(table, imageIndex, modelIndex, first);
    forall j | 0 <= j < imageIndex {
      ResizedTableRows(table, imageIndex + 1, j);
    }
    assert grown[imageIndex] == row + IdRange(first, Added(row, modelIndex));
    if imageIndex >= |table| {
      assert [] + IdRange(first, modelIndex + 1) == IdRange(first, modelIndex + 1);
    }
  }

  /** Fresh buffers `count` successive lookups (models `0 .. count`) allocate for a row that
      held `held` buffers. */
  function AddedFor(held: nat, count: nat): nat {
    if count <= held then 0 else count - held
  }

  /** Row `imageIndex` after lookups of models `0 .. count`. */
  function LookedRow(table: seq<seq<Handle>>, imageIndex: nat, count: nat, first: Handle): (row: seq<Handle>)
    ensures count <= |row|
  {
    var held := RowOf(table, imageIndex);
    held + IdRange(first, AddedFor(|held|, count))
  }

  /** The secondary table after lookups of models `0 .. count` (no lookup leaves it as it is). */
  function Looked(table: seq<seq<Handle>>, imageIndex: nat, count: nat, first: Handle): seq<seq<Handle>> {
    if count == 0 then table
    else ResizedTable(table, imageIndex + 1)[imageIndex := LookedRow(table, imageIndex, count, first)]
  }

  /** Lookups only add buffers numbered from `first` on, so a primary buffer issued before
      `first` and absent from its image's row stays absent from that row. */
  lemma LookedKeepsPrimaries(table: seq<seq<Handle>>, primaries: seq<Handle>, imageIndex: nat, count: nat, first: Handle)
    requires forall j | 0 <= j < |primaries| :: primaries[j] < first && primaries[j] !in RowOf(table, j)
    ensures forall j | 0 <= j < |primaries| :: primaries[j] !in RowOf(Looked(table, imageIndex, count, first), j)
  {
    if count > 0 {
      var after := Looked(table, imageIndex, count, first);
      forall j | 0 <= j < |primaries|
        ensures primaries[j] !in RowOf(after, j)
      {
        if j < imageIndex {
          ResizedTableRows(table, imageIndex + 1, j);
        } else if j == imageIndex {
          var held := RowOf(table, j);
          var added := IdRange(first, AddedFor(|held|, count));
          assert RowOf(after, j) == held + added;
          assert primaries[j] !in added;
        }
      }
    }
  }

  lemma {:induction false} IdRangeAppend(first: nat, a: nat, b: nat)
    ensures IdRange(first, a) + IdRange(first + a, b) == IdRange(first, a + b)
  {
    if b > 0 {
      IdRangeAppend(first, a, b - 1);
    }
  }

  /** One more lookup, numbering its fresh buffers after those of the earlier lookups,
      extends the table of `count` lookups to that of `count + 1`. */
  lemma LookupStep(table: seq<seq<Handle>>, imageIndex: nat, count: nat, first: Handle)
    ensures var before := Looked(table, imageIndex, count, first);
            var held := |RowOf(table, imageIndex)|;
            && RowOf(before, imageIndex) == LookedRow(table, imageIndex, count, first)
            && Added(RowOf(before, imageIndex), count) == AddedFor(held, count + 1) - AddedFor(held, count)
            && GrownTable(before, imageIndex, count, first + AddedFor(held, count)) == Looked(table, imageIndex, count + 1, first)
  {
    var held := RowOf(table, imageIndex);
    var a := AddedFor(|held|, count);
    var b := AddedFor(|held|, count + 1) - a;
    IdRangeAppend(first, a, b);
    assert held + IdRange(first, a) + IdRange(first + a, b) == held + IdRange(first, a + b);
    if count == 0 {
      assert IdRange(first, a) == [];
    }
  }

  /** The calls a sequence of lookups makes, given the buffers `secondaries` they return and
      the number `held` of buffers the row had before: an allocation for each buffer past the
      held ones, then the begin and end of its recording under `usage`. */
  function SecondaryLog(secondaries: seq<Handle>, held: nat, usage: CommandBufferUsage): (ops: seq<Op>) {
    if secondaries == [] then []
    else
      var i := |secondaries| - 1;
      SecondaryLog(secondaries[..i], held, usage)
      + (if i < held then [] else [CommandBuffersAllocated(Secondary, [secondaries[i]])])
      + [BeginCommandBuffer(secondaries[i], usage), EndCommandBuffer(secondaries[i])]
  }

  /** `recording` with each buffer of `hs` holding `cmds`. */
  function WithContents(recording: map<Handle, seq<Cmd>>, hs: seq<Handle>, cmds: seq<Cmd>): (r: map<Handle, seq<Cmd>>)
    ensures forall h | h in hs :: h in r && r[h] == cmds
  {
    if hs == [] then recording
    else WithContents(recording, hs[..|hs| - 1], cmds)[hs[|hs| - 1] := cmds]
  }

  lemma {:induction false} WithContentsOthers(recording: map<Handle, seq<Cmd>>, hs: seq<Handle>, cmds: seq<Cmd>, h: Handle)
    requires h !in hs
    ensures var r := WithContents(recording, hs, cmds);
            (h in r <==> h in recording) && (h in r ==> r[h] == recording[h])
  {
    if hs != [] {
      assert h !in hs[..|hs| - 1];
      WithContentsOthers(recording, hs[..|hs| - 1], cmds, h);
    }
  }

  /** The buffer the lookup of model `count` returns extends the list of earlier ones; it is
      the next fresh id when the row held no entry `count`. */
  lemma SecondariesStep(table: seq<seq<Handle>>, imageIndex: nat, count: nat, first: Handle,
                        secondaries: seq<Handle>, cb: Handle)
    requires secondaries == LookedRow(table, imageIndex, count, first)[..count]
    requires var after := Looked(table, imageIndex, count + 1, first);
             count < |after[imageIndex]| && cb == after[imageIndex][count]
    ensures secondaries + [cb] == LookedRow(table, imageIndex, count + 1, first)[..count + 1]
    ensures count >= |RowOf(table, imageIndex)| ==> cb == first + AddedFor(|RowOf(table, imageIndex)|, count)
  {
    var held := RowOf(table, imageIndex);
    var before := LookedRow(table, imageIndex, count, first);
    var after := LookedRow(table, imageIndex, count + 1, first);
    IdRangeAppend(first, AddedFor(|held|, count), AddedFor(|held|, count + 1) - AddedFor(|held|, count));
    assert before <= after;
  }

  /** The calls of one more lookup extend those of the earlier ones. */
  lemma SecondaryLogStep(log0: seq<Op>, secondaries: seq<Handle>, held: nat, usage: CommandBufferUsage, cb: Handle, next: Handle)
    requires |secondaries| >= held ==> cb == next
    ensures var count := |secondaries|;
            log0 + SecondaryLog(secondaries + [cb], held, usage)
            == log0 + SecondaryLog(secondaries, held, usage) + SecondaryAllocations(next, AddedFor(held, count + 1) - AddedFor(held, count))
               + [BeginCommandBuffer(cb, usage), EndCommandBuffer(cb)]
  {
    assert (secondaries + [cb])[..|secondaries|] == secondaries;
  }

  /** A buffer that is neither in the row nor fresh is none of the buffers the lookups return. */
  lemma {:induction false} NotLookedUp(table: seq<seq<Handle>>, imageIndex: nat, count: nat, first: Handle, h: Handle)
    requires h < first && h !in RowOf(table, imageIndex)
    ensures h !in LookedRow(table, imageIndex, count, first)[..count]
  {
    var held := RowOf(table, imageIndex);
    var row := LookedRow(table, imageIndex, count, first);
    forall j | 0 <= j < count
      ensures row[j] != h
    {
      if j >= |held| {
        assert row[j] == IdRange(first, AddedFor(|held|, count))[j - |held|];
      }
    }
  }

  /** The command that opens the render pass over the framebuffer of image `imageIndex`,
      clearing the whole swapchain extent and taking the subpass from secondary buffers. */
  function RenderPassStart(data: AppData, imageIndex: nat): Cmd
    reads data`renderPass, data`framebuffers, data`swapchainExtent
    requires imageIndex < |data.framebuffers|
  {
    BeginRenderPass(data.renderPass, data.framebuffers[imageIndex], data.swapchainExtent, SecondaryCommandBuffers)
  }

  /** What the primary buffer of an image records: the render pass, with its one subpass
      taken from the secondary buffers `secondaries`. */
  function PrimaryCommands(data: AppData, imageIndex: nat, secondaries: seq<Handle>): seq<Cmd>
    reads data`renderPass, data`framebuffers, data`swapchainExtent
    requires imageIndex < |data.framebuffers|
  {
    [RenderPassStart(data, imageIndex), ExecuteCommands(secondaries), EndRenderPass]
  }

  /** What a secondary buffer records for one model instance of image `imageIndex`. */
  function SecondaryCommands(data: AppData, imageIndex: nat): seq<Cmd>
    reads data`pipeline, data`vertexBuffer, data`indexBuffer, data`pipelineLayout, data`descriptorSets, data`indexCount
    requires imageIndex < |data.descriptorSets|
  {
    [BindPipeline(data.pipeline),
     BindVertexBuffer(data.vertexBuffer),
     BindIndexBuffer(data.indexBuffer),
     BindDescriptorSet(data.pipelineLayout, data.descriptorSets[imageIndex]),
     PushConstants(data.pipelineLayout, VertexStage, 0, Descriptors.MAT4_SIZE),
     PushConstants(data.pipelineLayout, FragmentStage, Descriptors.MAT4_SIZE, OPACITY_SIZE),
     DrawIndexed(data.indexCount)]
  }

  /** The first calls of `destroy_swapchain`: the color view, its memory and the color view
      again (the color image itself is never destroyed), the depth view, memory and image,
      then the descriptor pool. */
  function ColorDepthTeardown(data: AppData): seq<Op>
    reads data
  {
    [Destroyed(ImageView, data.colorImageView), Destroyed(Memory, data.colorImageMemory),
     Destroyed(ImageView, data.colorImageView),
     Destroyed(ImageView, data.depthImageView), Destroyed(Memory, data.depthImageMemory),
     Destroyed(Image, data.depthImage),
     Destroyed(DescriptorPool, data.descriptorPool)]
  }

  /** The per-image buffers, memories, framebuffers and primary command buffers. */
  function PerImageTeardown(data: AppData): seq<Op>
    reads data
  {
    Destroys(Buffer, data.uniformBuffers) + Destroys(Memory, data.uniformBuffersMemory)
    + Destroys(Framebuffer, data.framebuffers) + [CommandBuffersFreed(data.commandBuffers)]
  }

  /** The pipeline, its layout, the render pass, the swapchain's views and the swapchain. */
  function PresentationTeardown(data: AppData): seq<Op>
    reads data
  {
    [Destroyed(Pipeline, data.pipeline)] + [Destroyed(PipelineLayout, data.pipelineLayout)]
    + [Destroyed(RenderPass, data.renderPass)] + Destroys(ImageView, data.swapchainImageViews)
    + [Destroyed(Swapchain, data.swapchain)]
  }

  /** Every call of `destroy_swapchain`, in order. */
  function SwapchainTeardown(data: AppData): seq<Op>
    reads data
  {
    ColorDepthTeardown(data) + PerImageTeardown(data) + PresentationTeardown(data)
  }

  /** The handles `destroy_swapchain` releases. */
  function SwapchainHandles(data: AppData): set<Handle>
    reads data
  {
    ColorDepthHandles(data) + PerImageHandles(data) + PresentationHandles(data)
  }

  function ColorDepthHandles(data: AppData): set<Handle>
    reads data
  {
    {data.colorImageView, data.colorImageMemory, data.depthImageView, data.depthImageMemory,
     data.depthImage, data.descriptorPool}
  }

  function PerImageHandles(data: AppData): set<Handle>
    reads data
  {
    Elems(data.uniformBuffers) + Elems(data.uniformBuffersMemory) + Elems(data.framebuffers)
    + Elems(data.commandBuffers)
  }

  function PresentationHandles(data: AppData): set<Handle>
    reads data
  {
    {data.pipeline} + {data.pipelineLayout} + {data.renderPass} + Elems(data.swapchainImageViews) + {data.swapchain}
  }

  lemma RemoveInThreeParts(live: set<Handle>, a: set<Handle>, b: set<Handle>, c: set<Handle>)
    ensures live - a - b - c == live - (a + b + c)
  {
  }

  lemma LogInThreeParts(log: seq<Op>, a: seq<Op>, b: seq<Op>, c: seq<Op>)
    ensures log + a + b + c == log + (a + b + c)
  {
  }

  lemma RemoveInFourParts(live: set<Handle>, a: set<Handle>, b: set<Handle>, c: set<Handle>, d: set<Handle>)
    ensures live - a - b - c - d == live - (a + b + c + d)
  {
  }

  lemma LogInFourParts(log: seq<Op>, a: seq<Op>, b: seq<Op>, c: seq<Op>, d: seq<Op>)
    ensures log + a + b + c + d == log + (a + b + c + d)
  {
  }

  lemma RemoveInFiveParts(live: set<Handle>, a: set<Handle>, b: set<Handle>, c: set<Handle>, d: set<Handle>,
                          e: set<Handle>)
    ensures live - a - b - c - d - e == live - (a + b + c + d + e)
  {
  }

  lemma LogInFiveParts(log: seq<Op>, a: seq<Op>, b: seq<Op>, c: seq<Op>, d: seq<Op>, e: seq<Op>)
    ensures log + a + b + c + d + e == log + (a + b + c + d + e)
  {
  }

  lemma DestroysOnlyKind(kind: Kind, hs: seq<Handle>, op: Op)
    requires op in Destroys(kind, hs)
    ensures op.Destroyed? && op.kind == kind
  {
  }

  /** `op` destroys no descriptor-set layout, and no image but the depth image. */
  predicate SparesLayoutAndColor(data: AppData, op: Op)
    reads data
  {
    op.Destroyed? ==> op.kind != DescriptorSetLayout && (op.kind == Image ==> op.handle == data.depthImage)
  }

  lemma PerImageTeardownSpares(data: AppData)
    ensures forall op | op in PerImageTeardown(data) :: SparesLayoutAndColor(data, op)
  {
    forall op | op in PerImageTeardown(data)
      ensures SparesLayoutAndColor(data, op)
    {
      if op in Destroys(Buffer, data.uniformBuffers) {
        DestroysOnlyKind(Buffer, data.uniformBuffers, op);
      } else if op in Destroys(Memory, data.uniformBuffersMemory) {
        DestroysOnlyKind(Memory, data.uniformBuffersMemory, op);
      } else if op in Destroys(Framebuffer, data.framebuffers) {
        DestroysOnlyKind(Framebuffer, data.framebuffers, op);
      }
    }
  }

  lemma PresentationTeardownSpares(data: AppData)
    ensures forall op | op in PresentationTeardown(data) :: SparesLayoutAndColor(data, op)
  {
    forall op | op in PresentationTeardown(data)
      ensures SparesLayoutAndColor(data, op)
    {
      if op in Destroys(ImageView, data.swapchainImageViews) {
        DestroysOnlyKind(ImageView, data.swapchainImageViews, op);
      }
    }
  }

  /** `destroy_swapchain` never destroys the color image (unless it is also the depth image),
      and never destroys a descriptor-set layout. */
  lemma TeardownLeaks(data: AppData)
    ensures data.colorImage != data.depthImage ==> Destroyed(Image, data.colorImage) !in SwapchainTeardown(data)
    ensures forall op | op in SwapchainTeardown(data) :: !(op.Destroyed? && op.kind == DescriptorSetLayout)
  {
    PerImageTeardownSpares(data);
    PresentationTeardownSpares(data);
    assert forall op | op in SwapchainTeardown(data) :: SparesLayoutAndColor(data, op);
  }

  /** The texture calls of `destroy`: sampler, view, image, memory. */
  function TextureTeardown(data: AppData): seq<Op>
    reads data
  {
    [Destroyed(Sampler, data.textureSampler)] + [Destroyed(ImageView, data.textureImageView)]
    + [Destroyed(Image, data.textureImage)] + [Destroyed(Memory, data.textureImageMemory)]
  }

  /** The descriptor-set layout and the index and vertex buffers and memories. */
  function GeometryTeardown(data: AppData): seq<Op>
    reads data
  {
    [Destroyed(DescriptorSetLayout, data.descriptorSetLayout)]
    + [Destroyed(Buffer, data.indexBuffer)] + [Destroyed(Memory, data.indexBufferMemory)]
    + [Destroyed(Buffer, data.vertexBuffer)] + [Destroyed(Memory, data.vertexBufferMemory)]
  }

  /** The fences, the render-finished and image-available semaphores, and the command pool. */
  function SyncTeardown(data: AppData): seq<Op>
    reads data
  {
    Destroys(Fence, data.inFlightFences) + Destroys(Semaphore, data.renderFinishedSemaphores)
    + Destroys(Semaphore, data.imageAvailableSemaphores) + [Destroyed(CommandPool, data.commandPool)]
  }

  /** Every device-level call of `destroy`, in order. */
  function AppTeardown(data: AppData): seq<Op>
    reads data
  {
    SwapchainTeardown(data) + TextureTeardown(data) + GeometryTeardown(data) + SyncTeardown(data)
  }

  function TextureHandles(data: AppData): set<Handle>
    reads data
  {
    {data.textureSampler} + {data.textureImageView} + {data.textureImage} + {data.textureImageMemory}
  }

  function GeometryHandles(data: AppData): set<Handle>
    reads data
  {
    {data.descriptorSetLayout} + {data.indexBuffer} + {data.indexBufferMemory}
    + {data.vertexBuffer} + {data.vertexBufferMemory}
  }

  function SyncHandles(data: AppData): set<Handle>
    reads data
  {
    Elems(data.inFlightFences) + Elems(data.renderFinishedSemaphores)
    + Elems(data.imageAvailableSemaphores) + {data.commandPool}
  }

  function AppHandles(data: AppData): set<Handle>
    reads data
  {
    SwapchainHandles(data) + TextureHandles(data) + GeometryHandles(data) + SyncHandles(data)
  }

  /** `destroy` never destroys the color image unless it is also the depth or the texture
      image: the color attachment's image outlives the application. */
  lemma DestroyLeaksColorImage(data: AppData)
    requires data.colorImage != data.depthImage && data.colorImage != data.textureImage
    ensures Destroyed(Image, data.colorImage) !in AppTeardown(data)
  {
    var op := Destroyed(Image, data.colorImage);
    TeardownLeaks(data);
    assert op !in TextureTeardown(data);
    assert op !in GeometryTeardown(data);
    SyncTeardownSparesImages(data, data.colorImage);
  }

  /** The synchronisation teardown destroys no image. */
  lemma SyncTeardownSparesImages(data: AppData, image: Handle)
    ensures Destroyed(Image, image) !in SyncTeardown(data)
  {
  }

  /** What the (unmodelled) swapchain creation yields: how many images the swapchain has and
      its extent. */
  datatype SwapchainConfig = SwapchainConfig(imageCount: nat, extent: Extent)

  /** `images_in_flight.resize(len, vk::Fence::null())`. */
  function ResizedFences(fences: seq<Handle>, len: nat): (r: seq<Handle>)
    ensures |r| == len
  {
    if len <= |fences| then fences[..len] else fences + seq(len - |fences|, _ => NULL)
  }

  /** Resizing the fence table keeps the entries that fit and fills new slots with null. */
  lemma ResizedFencesEntries(fences: seq<Handle>, len: nat)
    ensures forall j | 0 <= j < len :: ResizedFences(fences, len)[j] == if j < |fences| then fences[j] else NULL
  {
  }

  /** What `acquire_next_image_khr` returns: an image index (the suboptimal code that may come
      with it is ignored), OUT_OF_DATE, or another error code. */
  datatype AcquireResult = Acquired(index: nat, suboptimal: bool) | AcquireOutOfDate | AcquireFailed(code: int)

  /** What `queue_present_khr` returns. */
  datatype PresentResult = Presented | PresentSuboptimal | PresentOutOfDate | PresentFailed(code: int)

  /** `changed` in `render`: present reported SUBOPTIMAL or OUT_OF_DATE. */
  predicate Changed(present: PresentResult) {
    present.PresentSuboptimal? || present.PresentOutOfDate?
  }

  /** The fence wait `render` does on an image before reusing it: none for the null fence. */
  function ImageWait(fence: Handle): seq<Op> {
    if fence == NULL then [] else [WaitForFences([fence])]
  }

  /** Size in bytes of the opacity push constant (one `f32`). */
  const OPACITY_SIZE: nat := 4

  class App {
    const gpu: Gpu
    const data: AppData
    /** The frame slot, below `MAX_FRAMES_IN_FLIGHT`. */
    var frame: nat
    var resized: bool
    /** How many model instances are drawn. */
    var models: nat
    /** How many times the swapchain has been recreated. */
    ghost var recreations: nat

    /** The state `App::create` ends in, for an already set-up device and data. */
    constructor (gpu: Gpu, data: AppData)
      ensures this.gpu == gpu && this.data == data
      ensures frame == 0 && !resized && models == 1 && recreations == 0
    {
      this.gpu, this.data := gpu, data;
      frame, resized, models := 0, false, 1;
      recreations := 0;
    }

    /** The table part of `update_secondary_command_buffer`: resizes the outer table and
        extends row `imageIndex` until it has an entry `modelIndex`, which is returned. */
    method SecondaryBufferFor(imageIndex: nat, modelIndex: nat) returns (cb: Handle)
      requires gpu.Valid()
      modifies data`secondaryCommandBuffers, gpu`live, gpu`next, gpu`log
      ensures gpu.Valid() && old(gpu.live) <= gpu.live
      ensures data.secondaryCommandBuffers == GrownTable(old(data.secondaryCommandBuffers), imageIndex, modelIndex, old(gpu.next))
      ensures var added := Added(RowOf(old(data.secondaryCommandBuffers), imageIndex), modelIndex);
              && gpu.next == old(gpu.next) + added
              && gpu.log == old(gpu.log) + SecondaryAllocations(old(gpu.next), added)
      ensures modelIndex < |data.secondaryCommandBuffers[imageIndex]| && cb == data.secondaryCommandBuffers[imageIndex][modelIndex]
    {
      data.secondaryCommandBuffers := ResizedTable(data.secondaryCommandBuffers, imageIndex + 1);
      var buffers := GrowRow(data.secondaryCommandBuffers[imageIndex], modelIndex);
      data.secondaryCommandBuffers := data.secondaryCommandBuffers[imageIndex := buffers];
      cb := buffers[modelIndex];
    }

    /** The allocation loop of `update_secondary_command_buffer`: allocates one secondary
        buffer per call and pushes it onto `row` until `row` has an entry `modelIndex`. */
    method GrowRow(row: seq<Handle>, modelIndex: nat) returns (buffers: seq<Handle>)
      requires gpu.Valid()
      modifies gpu`live, gpu`next, gpu`log
      ensures gpu.Valid() && old(gpu.live) <= gpu.live
      ensures buffers == row + IdRange(old(gpu.next), Added(row, modelIndex))
      ensures modelIndex < |buffers|
      ensures gpu.next == old(gpu.next) + Added(row, modelIndex)
      ensures gpu.log == old(gpu.log) + SecondaryAllocations(old(gpu.next), Added(row, modelIndex))
    {
      buffers := row;
      ghost var first := gpu.next;
      ghost var n := 0;
      while modelIndex >= |buffers|
        invariant |buffers| == |row| + n && (n > 0 ==> |buffers| <= modelIndex + 1)
        invariant buffers == row + IdRange(first, n)
        invariant gpu.next == first + n
        invariant gpu.log == old(gpu.log) + SecondaryAllocations(first, n)
        invariant gpu.Valid() && old(gpu.live) <= gpu.live
        decreases modelIndex + 1 - |buffers|
      {
        AllocationStep(row, old(gpu.log), first, n);
        var one := gpu.AllocateCommandBuffers(Secondary, 1);
        assert one == [first + n];
        buffers := buffers + one;
        n := n + 1;
      }
    }

    /** `update_secondary_command_buffer`: looks up (allocating as needed) the buffer of model
        `modelIndex` for image `imageIndex` and records into it the draw of that instance,
        inheriting the render pass and the image's framebuffer. */
    method UpdateSecondaryCommandBuffer(imageIndex: nat, modelIndex: nat) returns (cb: Handle)
      requires gpu.Valid() && imageIndex < |data.framebuffers| && imageIndex < |data.descriptorSets|
      modifies data`secondaryCommandBuffers, gpu`live, gpu`next, gpu`log, gpu`recording
      ensures gpu.Valid() && old(gpu.live) <= gpu.live
      ensures data.secondaryCommandBuffers == GrownTable(old(data.secondaryCommandBuffers), imageIndex, modelIndex, old(gpu.next))
      ensures modelIndex < |data.secondaryCommandBuffers[imageIndex]| && cb == data.secondaryCommandBuffers[imageIndex][modelIndex]
      ensures var added := Added(RowOf(old(data.secondaryCommandBuffers), imageIndex), modelIndex);
              && gpu.next == old(gpu.next) + added
              && gpu.log == old(gpu.log) + SecondaryAllocations(old(gpu.next), added)
                            + [BeginCommandBuffer(cb, RenderPassContinue(data.renderPass, data.framebuffers[imageIndex])),
                               EndCommandBuffer(cb)]
      ensures gpu.recording == old(gpu.recording)[cb := SecondaryCommands(data, imageIndex)]
    {
      cb := SecondaryBufferFor(imageIndex, modelIndex);
      gpu.Begin(cb, RenderPassContinue(data.renderPass, data.framebuffers[imageIndex]));
      RecordSecondary(cb, imageIndex);
      gpu.End(cb);
    }

    /** The render-pass usage the secondary buffers of image `imageIndex` are begun with. */
    function Continuation(imageIndex: nat): CommandBufferUsage
      reads data`renderPass, data`framebuffers
      requires imageIndex < |data.framebuffers|
    {
      RenderPassContinue(data.renderPass, data.framebuffers[imageIndex])
    }

    /** The state after the lookups of models `0 .. count` of image `imageIndex`, started on
        `table` with fresh ids from `first`, the call log `log0` and the recordings `recording0`,
        returned `secondaries`. */
    ghost predicate LookedUp(imageIndex: nat, count: nat, secondaries: seq<Handle>, table: seq<seq<Handle>>,
                             first: Handle, log0: seq<Op>, recording0: map<Handle, seq<Cmd>>,
                             usage: CommandBufferUsage, cmds: seq<Cmd>)
      reads this, data, gpu
    {
      var held := |RowOf(table, imageIndex)|;
      && gpu.Valid()
      && data.secondaryCommandBuffers == Looked(table, imageIndex, count, first)
      && secondaries == LookedRow(table, imageIndex, count, first)[..count]
      && gpu.next == first + AddedFor(held, count)
      && gpu.log == log0 + SecondaryLog(secondaries, held, usage)
      && gpu.recording == WithContents(recording0, secondaries, cmds)
    }

    /** The `(0..models).map(update_secondary_command_buffer)` step of `update_command_buffer`:
        looks up and records the buffers of models `0 .. count`, in order. */
    method RecordSecondaries(imageIndex: nat, count: nat) returns (secondaries: seq<Handle>)
      requires gpu.Valid() && imageIndex < |data.framebuffers| && imageIndex < |data.descriptorSets|
      modifies data`secondaryCommandBuffers, gpu`live, gpu`next, gpu`log, gpu`recording
      ensures gpu.Valid() && old(gpu.live) <= gpu.live
      ensures data.secondaryCommandBuffers == Looked(old(data.secondaryCommandBuffers), imageIndex, count, old(gpu.next))
      ensures secondaries == LookedRow(old(data.secondaryCommandBuffers), imageIndex, count, old(gpu.next))[..count]
      ensures gpu.next == old(gpu.next) + AddedFor(|RowOf(old(data.secondaryCommandBuffers), imageIndex)|, count)
      ensures gpu.log == old(gpu.log) + SecondaryLog(secondaries, |RowOf(old(data.secondaryCommandBuffers), imageIndex)|, Continuation(imageIndex))
      ensures gpu.recording == WithContents(old(gpu.recording), secondaries, SecondaryCommands(data, imageIndex))
    {
      ghost var table := data.secondaryCommandBuffers;
      ghost var first := gpu.next;
      ghost var usage := Continuation(imageIndex);
      ghost var cmds := SecondaryCommands(data, imageIndex);
      secondaries := [];
      var i := 0;
      while i < count
        invariant i <= count && old(gpu.live) <= gpu.live
        invariant usage == Continuation(imageIndex) && cmds == SecondaryCommands(data, imageIndex)
        invariant LookedUp(imageIndex, i, secondaries, table, first, old(gpu.log), old(gpu.recording), usage, cmds)
      {
        var cb := LookupNext(imageIndex, i, secondaries, table, first, old(gpu.log), old(gpu.recording), usage, cmds);
        secondaries := secondaries + [cb];
        i := i + 1;
      }
    }

    /** One iteration of `RecordSecondaries`: the lookup of model `count`. */
    method LookupNext(imageIndex: nat, count: nat, ghost secondaries: seq<Handle>, ghost table: seq<seq<Handle>>,
                      ghost first: Handle, ghost log0: seq<Op>, ghost recording0: map<Handle, seq<Cmd>>,
                      ghost usage: CommandBufferUsage, ghost cmds: seq<Cmd>) returns (cb: Handle)
      requires imageIndex < |data.framebuffers| && imageIndex < |data.descriptorSets|
      requires usage == Continuation(imageIndex) && cmds == SecondaryCommands(data, imageIndex)
      requires LookedUp(imageIndex, count, secondaries, table, first, log0, recording0, usage, cmds)
      modifies data`secondaryCommandBuffers, gpu`live, gpu`next, gpu`log, gpu`recording
      ensures old(gpu.live) <= gpu.live
      ensures usage == Continuation(imageIndex) && cmds == SecondaryCommands(data, imageIndex)
      ensures gpu.Valid()
      ensures data.secondaryCommandBuffers == Looked(table, imageIndex, count + 1, first)
      ensures secondaries + [cb] == LookedRow(table, imageIndex, count + 1, first)[..count + 1]
      ensures gpu.next == first + AddedFor(|RowOf(table, imageIndex)|, count + 1)
      ensures gpu.log == log0 + SecondaryLog(secondaries + [cb], |RowOf(table, imageIndex)|, usage)
      ensures gpu.recording == WithContents(recording0, secondaries + [cb], cmds)
    {
      ghost var held := |RowOf(table, imageIndex)|;
      LookupStep(table, imageIndex, count, first);
      cb := UpdateSecondaryCommandBuffer(imageIndex, count);
      SecondariesStep(table, imageIndex, count, first, secondaries, cb);
      SecondaryLogStep(log0, secondaries, held, usage, cb, first + AddedFor(held, count));
      assert (secondaries + [cb])[..count] == secondaries;
    }

    /** `update_command_buffer`: re-records the primary buffer of image `imageIndex` so that
        it runs the render pass over the secondary buffers of models `0 .. models`, each
        re-recorded first.  The primary buffer must not be one of the secondary ones. */
    method UpdateCommandBuffer(imageIndex: nat)
      requires gpu.Valid() && imageIndex < |data.commandBuffers|
      requires imageIndex < |data.framebuffers| && imageIndex < |data.descriptorSets|
      requires data.commandBuffers[imageIndex] < gpu.next
      requires data.commandBuffers[imageIndex] !in RowOf(data.secondaryCommandBuffers, imageIndex)
      modifies data`secondaryCommandBuffers, gpu`live, gpu`next, gpu`log, gpu`recording
      ensures gpu.Valid() && old(gpu.live) <= gpu.live
      ensures data.secondaryCommandBuffers == Looked(old(data.secondaryCommandBuffers), imageIndex, models, old(gpu.next))
      ensures gpu.next == old(gpu.next) + AddedFor(|RowOf(old(data.secondaryCommandBuffers), imageIndex)|, models)
      ensures var cb := data.commandBuffers[imageIndex];
              var secondaries := LookedRow(old(data.secondaryCommandBuffers), imageIndex, models, old(gpu.next))[..models];
              && gpu.log == old(gpu.log) + [ResetCommandBuffer(cb), BeginCommandBuffer(cb, OneTimeSubmit)]
                            + SecondaryLog(secondaries, |RowOf(old(data.secondaryCommandBuffers), imageIndex)|, Continuation(imageIndex))
                            + [EndCommandBuffer(cb)]
              && gpu.recording == WithContents(old(gpu.recording)[cb := [RenderPassStart(data, imageIndex)]],
                                               secondaries, SecondaryCommands(data, imageIndex))
                                  [cb := PrimaryCommands(data, imageIndex, secondaries)]
    {
      var cb := data.commandBuffers[imageIndex];
      StartPrimary(cb, imageIndex);
      ghost var started := gpu.recording;
      NotLookedUp(data.secondaryCommandBuffers, imageIndex, models, gpu.next, cb);
      var secondaries := RecordSecondaries(imageIndex, models);
      WithContentsOthers(started, secondaries, SecondaryCommands(data, imageIndex), cb);
      FinishPrimary(cb, imageIndex, secondaries);
    }

    /** The start of `update_command_buffer`: reset, begin for one submission, open the
        render pass. */
    method StartPrimary(cb: Handle, imageIndex: nat)
      requires imageIndex < |data.framebuffers|
      modifies gpu`log, gpu`recording
      ensures gpu.log == old(gpu.log) + [ResetCommandBuffer(cb), BeginCommandBuffer(cb, OneTimeSubmit)]
      ensures gpu.recording == old(gpu.recording)[cb := [RenderPassStart(data, imageIndex)]]
    {
      gpu.Reset(cb);
      gpu.Begin(cb, OneTimeSubmit);
      gpu.Record(cb, RenderPassStart(data, imageIndex));
      assert gpu.Contents(cb) == [RenderPassStart(data, imageIndex)];
    }

    /** The end of `update_command_buffer`: run the secondary buffers, close the render pass,
        end the recording. */
    method FinishPrimary(cb: Handle, imageIndex: nat, secondaries: seq<Handle>)
      requires imageIndex < |data.framebuffers|
      requires gpu.Contents(cb) == [RenderPassStart(data, imageIndex)]
      modifies gpu`log, gpu`recording
      ensures gpu.log == old(gpu.log) + [EndCommandBuffer(cb)]
      ensures gpu.recording == old(gpu.recording)[cb := PrimaryCommands(data, imageIndex, secondaries)]
    {
      gpu.Record(cb, ExecuteCommands(secondaries));
      gpu.Record(cb, EndRenderPass);
      gpu.End(cb);
      assert gpu.Contents(cb) == PrimaryCommands(data, imageIndex, secondaries);
    }

    /** `destroy_swapchain`: releases everything built from the swapchain, in the order of
        `SwapchainTeardown`.  Destroying the color view a second time is a destroy of a handle
        that is no longer live. */
    method DestroySwapchain()
      requires gpu.Valid()
      modifies gpu`live, gpu`invalidFrees, gpu`log
      ensures gpu.Valid()
      ensures gpu.live == old(gpu.live) - SwapchainHandles(data)
      ensures gpu.log == old(gpu.log) + SwapchainTeardown(data)
      ensures old(gpu.invalidFrees) <= gpu.invalidFrees
      ensures data.colorImageView != NULL ==> data.colorImageView in gpu.invalidFrees
    {
      RemoveInThreeParts(gpu.live, ColorDepthHandles(data), PerImageHandles(data), PresentationHandles(data));
      LogInThreeParts(gpu.log, ColorDepthTeardown(data), PerImageTeardown(data), PresentationTeardown(data));
      DestroyColorDepth();
      DestroyPerImage();
      DestroyPresentation();
    }

    /** `destroy`: `destroy_swapchain`, then the texture, the descriptor-set layout, the index
        and vertex buffers, the synchronisation objects and the command pool, in the order of
        `AppTeardown`.  (The device, surface, messenger and instance are not part of this
        model.) */
    method Destroy()
      requires gpu.Valid()
      modifies gpu`live, gpu`invalidFrees, gpu`log
      ensures gpu.Valid()
      ensures gpu.live == old(gpu.live) - AppHandles(data)
      ensures gpu.log == old(gpu.log) + AppTeardown(data)
      ensures old(gpu.invalidFrees) <= gpu.invalidFrees
      ensures data.colorImageView != NULL ==> data.colorImageView in gpu.invalidFrees
    {
      RemoveInFourParts(gpu.live, SwapchainHandles(data), TextureHandles(data), GeometryHandles(data), SyncHandles(data));
      LogInFourParts(gpu.log, SwapchainTeardown(data), TextureTeardown(data), GeometryTeardown(data), SyncTeardown(data));
      DestroySwapchain();
      DestroyTexture();
      DestroyGeometry();
      DestroySync();
    }

    method DestroyTexture()
      requires gpu.Valid()
      modifies gpu`live, gpu`invalidFrees, gpu`log
      ensures gpu.Valid()
      ensures gpu.live == old(gpu.live) - TextureHandles(data)
      ensures gpu.log == old(gpu.log) + TextureTeardown(data)
      ensures old(gpu.invalidFrees) <= gpu.invalidFrees
    {
      RemoveInFourParts(gpu.live, {data.textureSampler}, {data.textureImageView}, {data.textureImage},
                        {data.textureImageMemory});
      LogInFourParts(gpu.log, [Destroyed(Sampler, data.textureSampler)], [Destroyed(ImageView, data.textureImageView)],
                     [Destroyed(Image, data.textureImage)], [Destroyed(Memory, data.textureImageMemory)]);
      gpu.Destroy(Sampler, data.textureSampler);
      gpu.Destroy(ImageView, data.textureImageView);
      gpu.Destroy(Image, data.textureImage);
      gpu.Destroy(Memory, data.textureImageMemory);
    }

    method DestroyGeometry()
      requires gpu.Valid()
      modifies gpu`live, gpu`invalidFrees, gpu`log
      ensures gpu.Valid()
      ensures gpu.live == old(gpu.live) - GeometryHandles(data)
      ensures gpu.log == old(gpu.log) + GeometryTeardown(data)
      ensures old(gpu.invalidFrees) <= gpu.invalidFrees
    {
      RemoveInFiveParts(gpu.live, {data.descriptorSetLayout}, {data.indexBuffer}, {data.indexBufferMemory},
                        {data.vertexBuffer}, {data.vertexBufferMemory});
      LogInFiveParts(gpu.log, [Destroyed(DescriptorSetLayout, data.descriptorSetLayout)],
                     [Destroyed(Buffer, data.indexBuffer)], [Destroyed(Memory, data.indexBufferMemory)],
                     [Destroyed(Buffer, data.vertexBuffer)], [Destroyed(Memory, data.vertexBufferMemory)]);
      gpu.Destroy(DescriptorSetLayout, data.descriptorSetLayout);
      gpu.Destroy(Buffer, data.indexBuffer);
      gpu.Destroy(Memory, data.indexBufferMemory);
      gpu.Destroy(Buffer, data.vertexBuffer);
      gpu.Destroy(Memory, data.vertexBufferMemory);
    }

    method DestroySync()
      requires gpu.Valid()
      modifies gpu`live, gpu`invalidFrees, gpu`log
      ensures gpu.Valid()
      ensures gpu.live == old(gpu.live) - SyncHandles(data)
      ensures gpu.log == old(gpu.log) + SyncTeardown(data)
      ensures old(gpu.invalidFrees) <= gpu.invalidFrees
    {
      RemoveInFourParts(gpu.live, Elems(data.inFlightFences), Elems(data.renderFinishedSemaphores),
                        Elems(data.imageAvailableSemaphores), {data.commandPool});
      LogInFourParts(gpu.log, Destroys(Fence, data.inFlightFences), Destroys(Semaphore, data.renderFinishedSemaphores),
                     Destroys(Semaphore, data.imageAvailableSemaphores), [Destroyed(CommandPool, data.commandPool)]);
      gpu.DestroyEach(Fence, data.inFlightFences);
      gpu.DestroyEach(Semaphore, data.renderFinishedSemaphores);
      gpu.DestroyEach(Semaphore, data.imageAvailableSemaphores);
      gpu.Destroy(CommandPool, data.commandPool);
    }

    method DestroyColorDepth()
      requires gpu.Valid()
      modifies gpu`live, gpu`invalidFrees, gpu`log
      ensures gpu.Valid()
      ensures gpu.live == old(gpu.live) - ColorDepthHandles(data)
      ensures gpu.log == old(gpu.log) + ColorDepthTeardown(data)
      ensures old(gpu.invalidFrees) <= gpu.invalidFrees
      ensures data.colorImageView != NULL ==> data.colorImageView in gpu.invalidFrees
    {
      gpu.Destroy(ImageView, data.colorImageView);
      gpu.Destroy(Memory, data.colorImageMemory);
      gpu.Destroy(ImageView, data.colorImageView);
      gpu.Destroy(ImageView, data.depthImageView);
      gpu.Destroy(Memory, data.depthImageMemory);
      gpu.Destroy(Image, data.depthImage);
      gpu.Destroy(DescriptorPool, data.descriptorPool);
    }

    method DestroyPerImage()
      requires gpu.Valid()
      modifies gpu`live, gpu`invalidFrees, gpu`log
      ensures gpu.Valid()
      ensures gpu.live == old(gpu.live) - PerImageHandles(data)
      ensures gpu.log == old(gpu.log) + PerImageTeardown(data)
      ensures old(gpu.invalidFrees) <= gpu.invalidFrees
    {
      RemoveInFourParts(gpu.live, Elems(data.uniformBuffers), Elems(data.uniformBuffersMemory),
                        Elems(data.framebuffers), Elems(data.commandBuffers));
      LogInFourParts(gpu.log, Destroys(Buffer, data.uniformBuffers), Destroys(Memory, data.uniformBuffersMemory),
                     Destroys(Framebuffer, data.framebuffers), [CommandBuffersFreed(data.commandBuffers)]);
      gpu.DestroyEach(Buffer, data.uniformBuffers);
      gpu.DestroyEach(Memory, data.uniformBuffersMemory);
      gpu.DestroyEach(Framebuffer, data.framebuffers);
      gpu.FreeCommandBuffers(data.commandBuffers);
    }

    method DestroyPresentation()
      requires gpu.Valid()
      modifies gpu`live, gpu`invalidFrees, gpu`log
      ensures gpu.Valid()
      ensures gpu.live == old(gpu.live) - PresentationHandles(data)
      ensures gpu.log == old(gpu.log) + PresentationTeardown(data)
      ensures old(gpu.invalidFrees) <= gpu.invalidFrees
    {
      RemoveInFiveParts(gpu.live, {data.pipeline}, {data.pipelineLayout}, {data.renderPass},
                        Elems(data.swapchainImageViews), {data.swapchain});
      LogInFiveParts(gpu.log, [Destroyed(Pipeline, data.pipeline)], [Destroyed(PipelineLayout, data.pipelineLayout)],
                     [Destroyed(RenderPass, data.renderPass)], Destroys(ImageView, data.swapchainImageViews),
                     [Destroyed(Swapchain, data.swapchain)]);
      gpu.Destroy(Pipeline, data.pipeline);
      gpu.Destroy(PipelineLayout, data.pipelineLayout);
      gpu.Destroy(RenderPass, data.renderPass);
      gpu.DestroyEach(ImageView, data.swapchainImageViews);
      gpu.Destroy(Swapchain, data.swapchain);
    }

    /** `recreate_swapchain`: waits for the device, destroys the vertex buffer (but not its
        memory) and everything built from the swapchain, rebuilds it all for the swapchain
        `config` describes, and resizes the image-fence table to the new image count.  The
        descriptor-set layout is created anew without the old one being destroyed, and the
        index buffer is replaced without the old one being destroyed. */
    method RecreateSwapchain(config: SwapchainConfig) returns (r: Outcome)
      requires gpu.Valid()
      modifies this`recreations, data, gpu`live, gpu`next, gpu`log, gpu`recording, gpu`invalidFrees
      ensures gpu.Valid() && recreations == old(recreations) + 1
      ensures old(gpu.live) - {old(data.vertexBuffer)} - old(SwapchainHandles(data)) <= gpu.live
      ensures old(gpu.invalidFrees) <= gpu.invalidFrees
      ensures old(data.colorImageView) != NULL ==> old(data.colorImageView) in gpu.invalidFrees
      ensures SyncUnchanged(old(data.inFlightFences), old(data.imageAvailableSemaphores), old(data.renderFinishedSemaphores))
      ensures r.Fail? ==> r.error == NoSuitableMemoryType
      ensures r == Pass ==>
                && |data.swapchainImages| == config.imageCount && data.swapchainExtent == config.extent
                && data.PerImage() && PerImageResources()
                && data.imagesInFlight == ResizedFences(old(data.imagesInFlight), config.imageCount)
    {
      recreations := recreations + 1;
      TearDownForRecreate();
      r := Rebuild(config);
    }

    /** The second half of `recreate_swapchain`: everything is created again and the
        image-fence table resized. */
    method Rebuild(config: SwapchainConfig) returns (r: Outcome)
      requires gpu.Valid()
      modifies data, gpu`live, gpu`next, gpu`log, gpu`recording, gpu`invalidFrees
      ensures gpu.Valid() && old(gpu.live) <= gpu.live && gpu.invalidFrees == old(gpu.invalidFrees)
      ensures SyncUnchanged(old(data.inFlightFences), old(data.imageAvailableSemaphores), old(data.renderFinishedSemaphores))
      ensures r.Fail? ==> r.error == NoSuitableMemoryType
      ensures r == Pass ==>
                && |data.swapchainImages| == config.imageCount && data.swapchainExtent == config.extent
                && data.PerImage() && PerImageResources()
                && data.imagesInFlight == ResizedFences(old(data.imagesInFlight), config.imageCount)
    {
      RebuildPresentation(config);
      r := RebuildResources();
      if r.Fail? {
        return;
      }
      data.imagesInFlight := ResizedFences(data.imagesInFlight, |data.swapchainImages|);
    }

    /** The first half of `recreate_swapchain`: device wait, vertex-buffer destroy, and
        `destroy_swapchain`. */
    method TearDownForRecreate()
      requires gpu.Valid()
      modifies gpu`live, gpu`invalidFrees, gpu`log
      ensures gpu.Valid()
      ensures gpu.live == old(gpu.live) - {data.vertexBuffer} - SwapchainHandles(data)
      ensures gpu.log == old(gpu.log) + [DeviceWaitIdle] + [Destroyed(Buffer, data.vertexBuffer)] + SwapchainTeardown(data)
      ensures old(gpu.invalidFrees) <= gpu.invalidFrees
      ensures data.colorImageView != NULL ==> data.colorImageView in gpu.invalidFrees
    {
      gpu.Call(DeviceWaitIdle);
      gpu.Destroy(Buffer, data.vertexBuffer);
      DestroySwapchain();
    }

    /** The swapchain, its images and views, the render pass, a new descriptor-set layout, the
        pipeline, the color and depth attachments and the framebuffers. */
    method RebuildPresentation(config: SwapchainConfig)
      requires gpu.Valid()
      modifies data`swapchain, data`swapchainImages, data`swapchainExtent, data`swapchainImageViews,
               data`renderPass, data`descriptorSetLayout, data`pipelineLayout, data`pipeline,
               data`colorImage, data`colorImageMemory, data`colorImageView,
               data`depthImage, data`depthImageMemory, data`depthImageView, data`framebuffers,
               gpu`live, gpu`next, gpu`log
      ensures gpu.Valid() && old(gpu.live) <= gpu.live
      ensures |data.swapchainImages| == config.imageCount && data.swapchainExtent == config.extent
      ensures |data.swapchainImageViews| == config.imageCount && |data.framebuffers| == config.imageCount
    {
      CreateSwapchain(config);
      CreateRenderPass();
      Descriptors.CreateDescriptorSetLayout(gpu, data);
      CreatePipeline();
      CreateAttachments();
      Buffers.CreateFramebuffers(gpu, data);
    }

    /** `create_swapchain` and `create_swapchain_image_views` (not part of this model beyond
        their results): a swapchain of `config.imageCount` images, one view each. */
    method CreateSwapchain(config: SwapchainConfig)
      requires gpu.Valid()
      modifies data`swapchain, data`swapchainImages, data`swapchainExtent, data`swapchainImageViews,
               gpu`live, gpu`next, gpu`log
      ensures gpu.Valid() && old(gpu.live) <= gpu.live
      ensures |data.swapchainImages| == config.imageCount && data.swapchainExtent == config.extent
      ensures |data.swapchainImageViews| == config.imageCount
    {
      data.swapchain := gpu.Create(ObjectInfo(Swapchain));
      data.swapchainImages := gpu.GetSwapchainImages(data.swapchain, config.imageCount);
      data.swapchainExtent := config.extent;
      data.swapchainImageViews := gpu.CreateEach(ObjectInfo(ImageView), config.imageCount);
    }

    /** `create_render_pass` (not part of this model beyond its result). */
    method CreateRenderPass()
      requires gpu.Valid()
      modifies data`renderPass, gpu`live, gpu`next, gpu`log
      ensures gpu.Valid() && old(gpu.live) <= gpu.live
    {
      data.renderPass := gpu.Create(ObjectInfo(RenderPass));
    }

    /** `create_pipeline` (not part of this model beyond its results). */
    method CreatePipeline()
      requires gpu.Valid()
      modifies data`pipelineLayout, data`pipeline, gpu`live, gpu`next, gpu`log
      ensures gpu.Valid() && old(gpu.live) <= gpu.live
    {
      data.pipelineLayout := gpu.Create(ObjectInfo(PipelineLayout));
      data.pipeline := gpu.Create(ObjectInfo(Pipeline));
    }

    /** `create_color_objects` and `create_depth_objects` (not part of this model beyond their
        results): an image, its memory and a view for each attachment. */
    method CreateAttachments()
      requires gpu.Valid()
      modifies data`colorImage, data`colorImageMemory, data`colorImageView,
               data`depthImage, data`depthImageMemory, data`depthImageView, gpu`live, gpu`next, gpu`log
      ensures gpu.Valid() && old(gpu.live) <= gpu.live
    {
      data.colorImage := gpu.Create(ObjectInfo(Image));
      data.colorImageMemory := gpu.Create(ObjectInfo(Memory));
      data.colorImageView := gpu.Create(ObjectInfo(ImageView));
      data.depthImage := gpu.Create(ObjectInfo(Image));
      data.depthImageMemory := gpu.Create(ObjectInfo(Memory));
      data.depthImageView := gpu.Create(ObjectInfo(ImageView));
    }

    /** The second half of `recreate_swapchain`: vertex, index and uniform buffers, the
        descriptor pool and sets, and the command buffers; the first failing step's error is
        returned. */
    method RebuildResources() returns (r: Outcome)
      requires gpu.Valid() && |data.framebuffers| == |data.swapchainImages|
      modifies data`vertexBuffer, data`vertexBufferMemory, data`indexBuffer, data`indexBufferMemory,
               data`uniformBuffers, data`uniformBuffersMemory, data`descriptorPool, data`descriptorSets,
               data`commandBuffers, data`secondaryCommandBuffers,
               gpu`live, gpu`next, gpu`log, gpu`recording, gpu`invalidFrees
      ensures gpu.Valid() && old(gpu.live) <= gpu.live && gpu.invalidFrees == old(gpu.invalidFrees)
      ensures r.Fail? ==> r.error == NoSuitableMemoryType
      ensures r == Pass ==> PerImageResources()
    {
      r := UploadGeometry();
      if r.Fail? {
        return;
      }
      r := DescribeImages();
    }

    /** Every per-image list has one entry per swapchain image, every secondary row is empty,
        and every primary command buffer has been issued. */
    ghost predicate PerImageResources()
      reads data, gpu
    {
      var n := |data.swapchainImages|;
      && |data.uniformBuffers| == n && |data.uniformBuffersMemory| == n && |data.descriptorSets| == n
      && |data.commandBuffers| == n && data.secondaryCommandBuffers == Buffers.EmptyTable(n)
      && forall k | 0 <= k < n :: data.commandBuffers[k] < gpu.next
    }

    /** `create_vertex_buffer` then `create_index_buffer`. */
    method UploadGeometry() returns (r: Outcome)
      requires gpu.Valid()
      modifies data`vertexBuffer, data`vertexBufferMemory, data`indexBuffer, data`indexBufferMemory,
               gpu`live, gpu`next, gpu`log, gpu`recording, gpu`invalidFrees
      ensures gpu.Valid() && old(gpu.live) <= gpu.live && gpu.invalidFrees == old(gpu.invalidFrees)
      ensures r.Fail? ==> r.error == NoSuitableMemoryType
    {
      r := VertexBuffers.CreateVertexBuffer(gpu, data);
      if r.Fail? {
        return;
      }
      r := VertexBuffers.CreateIndexBuffer(gpu, data);
    }

    /** `create_uniform_buffers`, `create_descriptor_pool`, `create_descriptor_sets` and
        `create_command_buffers`. */
    method DescribeImages() returns (r: Outcome)
      requires gpu.Valid() && |data.framebuffers| == |data.swapchainImages|
      modifies data`uniformBuffers, data`uniformBuffersMemory, data`descriptorPool, data`descriptorSets,
               data`commandBuffers, data`secondaryCommandBuffers, gpu`live, gpu`next, gpu`log
      ensures gpu.Valid() && old(gpu.live) <= gpu.live
      ensures r.Fail? ==> r.error == NoSuitableMemoryType
      ensures r == Pass ==> PerImageResources()
    {
      r := Descriptors.CreateUniformBuffers(gpu, data);
      if r.Fail? {
        return;
      }
      AllocatePerImage();
    }

    /** `create_descriptor_pool`, `create_descriptor_sets` and `create_command_buffers`, once
        the uniform buffers exist. */
    method AllocatePerImage()
      requires gpu.Valid() && |data.framebuffers| == |data.swapchainImages|
      requires |data.uniformBuffers| == |data.swapchainImages| == |data.uniformBuffersMemory|
      modifies data`descriptorPool, data`descriptorSets, data`commandBuffers, data`secondaryCommandBuffers,
               gpu`live, gpu`next, gpu`log
      ensures gpu.Valid() && old(gpu.live) <= gpu.live
      ensures PerImageResources()
    {
      Descriptors.CreateDescriptorPool(gpu, data);
      Descriptors.CreateDescriptorSets(gpu, data);
      Buffers.CreateCommandBuffers(gpu, data);
    }

    /** The frame slots' fences and semaphores are the ones given. */
    ghost predicate SyncUnchanged(fences: seq<Handle>, imageAvailable: seq<Handle>, renderFinished: seq<Handle>)
      reads data
    {
      && data.inFlightFences == fences && data.imageAvailableSemaphores == imageAvailable
      && data.renderFinishedSemaphores == renderFinished
    }

    /** What `render` needs of the state: a frame slot in range with a non-null fence and two
        semaphores per slot, one entry per swapchain image in the per-image lists, and each
        image's primary command buffer issued before and distinct from its secondary ones. */
    ghost predicate ReadyToRender()
      reads this, data, gpu
    {
      && gpu.Valid() && frame < MAX_FRAMES_IN_FLIGHT
      && |data.inFlightFences| == MAX_FRAMES_IN_FLIGHT && NULL !in data.inFlightFences
      && |data.imageAvailableSemaphores| == MAX_FRAMES_IN_FLIGHT
      && |data.renderFinishedSemaphores| == MAX_FRAMES_IN_FLIGHT
      && data.PerImage()
      && forall k | 0 <= k < |data.commandBuffers| ::
           data.commandBuffers[k] < gpu.next && data.commandBuffers[k] !in RowOf(data.secondaryCommandBuffers, k)
    }

    /** `render`: one turn of acquire -> draw -> submit -> present for frame slot `frame`.
        `acquire` and `present` stand for what the driver reports, `config` for the swapchain a
        recreation would build. */
    method Render(acquire: AcquireResult, present: PresentResult, config: SwapchainConfig) returns (r: Outcome)
      requires ReadyToRender()
      requires acquire.Acquired? ==> acquire.index < |data.swapchainImages|
      modifies this`frame, this`resized, this`recreations, data,
               gpu`live, gpu`next, gpu`log, gpu`recording, gpu`invalidFrees, gpu`frameCalls
      ensures frame < MAX_FRAMES_IN_FLIGHT
      ensures !acquire.Acquired? ==> frame == old(frame) && resized == old(resized)
      ensures acquire.AcquireOutOfDate? ==> recreations == old(recreations) + 1 && gpu.frameCalls == old(gpu.frameCalls) + 2
      ensures acquire.AcquireFailed? ==>
                && r == Fail(ApiError(acquire.code)) && recreations == old(recreations)
                && gpu.frameCalls == old(gpu.frameCalls) + 2 && gpu.live == old(gpu.live)
                && data.imagesInFlight == old(data.imagesInFlight)
                && gpu.log == old(gpu.log) + [WaitForFences([old(data.inFlightFences[frame])]),
                                              AcquireNextImage(old(data.swapchain), old(data.imageAvailableSemaphores[frame]))]
      ensures acquire.Acquired? ==>
                var recreate := old(resized) || Changed(present);
                && !resized
                && recreations == old(recreations) + (if recreate then 1 else 0)
                && (r == Pass ==> frame == (old(frame) + 1) % MAX_FRAMES_IN_FLIGHT)
                && (r.Fail? ==> frame == old(frame))
                && (!recreate ==> (r.Fail? <==> present.PresentFailed?))
                && (!recreate && present.PresentFailed? ==> r == Fail(ApiError(present.code)))
                && gpu.frameCalls == old(gpu.frameCalls) + 5 + |ImageWait(old(data.imagesInFlight[acquire.index]))|
      ensures acquire.Acquired? && !(old(resized) || Changed(present)) ==>
                var k := acquire.index;
                var fence := old(data.inFlightFences[frame]);
                var cb := old(data.commandBuffers[k]);
                && data.imagesInFlight == old(data.imagesInFlight)[k := fence]
                && |gpu.log| >= 3
                && gpu.log[|gpu.log| - 3..]
                   == [ResetFences([fence]),
                       QueueSubmit(data.graphicsQueue, old(data.imageAvailableSemaphores[frame]), cb, gpu.Contents(cb),
                                   old(data.renderFinishedSemaphores[frame]), fence),
                       QueuePresent(data.presentQueue, old(data.renderFinishedSemaphores[frame]), data.swapchain, k)]
      ensures r == Pass ==> ReadyToRender()
    {
      AcquireImage();
      match acquire
      case AcquireOutOfDate =>
        r := RecreateSwapchain(config);
      case AcquireFailed(code) =>
        r := Fail(ApiError(code));
      case Acquired(k, _) =>
        r := DrawFrame(k, present, config);
    }

    /** The acquired path of `render` for image `k`: wait for the image's last fence, record
        and submit its command buffer under the slot's fence, and present it. */
    method DrawFrame(k: nat, present: PresentResult, config: SwapchainConfig) returns (r: Outcome)
      requires ReadyToRender() && k < |data.swapchainImages|
      modifies this`frame, this`resized, this`recreations, data,
               gpu`live, gpu`next, gpu`log, gpu`recording, gpu`invalidFrees, gpu`frameCalls
      ensures frame < MAX_FRAMES_IN_FLIGHT && !resized
      ensures var recreate := old(resized) || Changed(present);
              && recreations == old(recreations) + (if recreate then 1 else 0)
              && (r == Pass ==> frame == (old(frame) + 1) % MAX_FRAMES_IN_FLIGHT)
              && (r.Fail? ==> frame == old(frame))
              && (!recreate ==> (r.Fail? <==> present.PresentFailed?))
              && (!recreate && present.PresentFailed? ==> r == Fail(ApiError(present.code)))
              && gpu.frameCalls == old(gpu.frameCalls) + 3 + |ImageWait(old(data.imagesInFlight[k]))|
      ensures !(old(resized) || Changed(present)) ==>
                var fence := old(data.inFlightFences[frame]);
                var cb := old(data.commandBuffers[k]);
                && data.imagesInFlight == old(data.imagesInFlight)[k := fence]
                && |gpu.log| >= 3
                && gpu.log[|gpu.log| - 3..]
                   == [ResetFences([fence]),
                       QueueSubmit(data.graphicsQueue, old(data.imageAvailableSemaphores[frame]), cb, gpu.Contents(cb),
                                   old(data.renderFinishedSemaphores[frame]), fence),
                       QueuePresent(data.presentQueue, old(data.renderFinishedSemaphores[frame]), data.swapchain, k)]
      ensures r == Pass ==> ReadyToRender()
    {
      WaitForImage(k);
      SubmitFrame(k);
      ghost var submitted := gpu.log;
      r := PresentFrame(k, present, config);
      assert !(old(resized) || Changed(present)) ==> gpu.log == submitted + [gpu.log[|gpu.log| - 1]];
    }

    /** The slot's fence wait and the acquire call. */
    method AcquireImage()
      requires frame < |data.inFlightFences| && frame < |data.imageAvailableSemaphores|
      modifies gpu`log, gpu`frameCalls
      ensures gpu.frameCalls == old(gpu.frameCalls) + 2
      ensures gpu.log == old(gpu.log) + [WaitForFences([data.inFlightFences[frame]]),
                                         AcquireNextImage(data.swapchain, data.imageAvailableSemaphores[frame])]
    {
      gpu.FrameCall(WaitForFences([data.inFlightFences[frame]]));
      gpu.FrameCall(AcquireNextImage(data.swapchain, data.imageAvailableSemaphores[frame]));
    }

    /** Waits for the fence of the last frame that used image `k`, if there is one, and makes
        the slot's fence the image's fence; no other entry changes. */
    method WaitForImage(k: nat)
      requires k < |data.imagesInFlight| && frame < |data.inFlightFences|
      modifies data`imagesInFlight, gpu`log, gpu`frameCalls
      ensures data.imagesInFlight == old(data.imagesInFlight)[k := data.inFlightFences[frame]]
      ensures gpu.log == old(gpu.log) + ImageWait(old(data.imagesInFlight[k]))
      ensures gpu.frameCalls == old(gpu.frameCalls) + |ImageWait(old(data.imagesInFlight[k]))|
    {
      if data.imagesInFlight[k] != NULL {
        gpu.FrameCall(WaitForFences([data.imagesInFlight[k]]));
      }
      data.imagesInFlight := data.imagesInFlight[k := data.inFlightFences[frame]];
    }

    /** Re-records image `k`'s command buffer, updates its uniform buffer, resets the slot's
        fence and submits the command buffer signalling that same fence. */
    method SubmitFrame(k: nat)
      requires ReadyToRender() && k < |data.swapchainImages|
      modifies data`secondaryCommandBuffers, gpu`live, gpu`next, gpu`log, gpu`recording, gpu`frameCalls
      ensures ReadyToRender() && old(gpu.live) <= gpu.live
      ensures gpu.frameCalls == old(gpu.frameCalls) + 2
      ensures var fence := data.inFlightFences[frame];
              var cb := data.commandBuffers[k];
              && |gpu.log| >= 2
              && gpu.log[|gpu.log| - 2..]
                 == [ResetFences([fence]),
                     QueueSubmit(data.graphicsQueue, data.imageAvailableSemaphores[frame], cb, gpu.Contents(cb),
                                 data.renderFinishedSemaphores[frame], fence)]
      ensures gpu.Contents(data.commandBuffers[k])
              == PrimaryCommands(data, k, LookedRow(old(data.secondaryCommandBuffers), k, models, old(gpu.next))[..models])
    {
      RecordFrame(k);
      var fence := data.inFlightFences[frame];
      gpu.FrameCall(ResetFences([fence]));
      gpu.FrameCall(QueueSubmit(data.graphicsQueue, data.imageAvailableSemaphores[frame], data.commandBuffers[k],
                                gpu.Contents(data.commandBuffers[k]), data.renderFinishedSemaphores[frame], fence));
    }

    /** `update_command_buffer` and `update_uniform_buffer` for image `k`. */
    method RecordFrame(k: nat)
      requires ReadyToRender() && k < |data.swapchainImages|
      modifies data`secondaryCommandBuffers, gpu`live, gpu`next, gpu`log, gpu`recording
      ensures ReadyToRender() && old(gpu.live) <= gpu.live
      ensures gpu.Contents(data.commandBuffers[k])
              == PrimaryCommands(data, k, LookedRow(old(data.secondaryCommandBuffers), k, models, old(gpu.next))[..models])
    {
      UpdateCommandBuffer(k);
      LookedKeepsPrimaries(old(data.secondaryCommandBuffers), data.commandBuffers, k, models, old(gpu.next));
      Descriptors.UpdateUniformBuffer(gpu, data, k);
    }

    /** Presents image `k`; recreates the swapchain when the window was resized or present
        reported a changed swapchain, otherwise returns a present error; then advances the
        frame slot. */
    method PresentFrame(k: nat, present: PresentResult, config: SwapchainConfig) returns (r: Outcome)
      requires ReadyToRender()
      modifies this`frame, this`resized, this`recreations, data,
               gpu`live, gpu`next, gpu`log, gpu`recording, gpu`invalidFrees, gpu`frameCalls
      ensures frame < MAX_FRAMES_IN_FLIGHT && !resized && gpu.frameCalls == old(gpu.frameCalls) + 1
      ensures var recreate := old(resized) || Changed(present);
              && recreations == old(recreations) + (if recreate then 1 else 0)
              && (r == Pass ==> frame == (old(frame) + 1) % MAX_FRAMES_IN_FLIGHT)
              && (r.Fail? ==> frame == old(frame))
              && (!recreate ==> (r.Fail? <==> present.PresentFailed?))
              && (!recreate && present.PresentFailed? ==> r == Fail(ApiError(present.code)))
      ensures !(old(resized) || Changed(present)) ==>
                && gpu.log == old(gpu.log) + [QueuePresent(old(data.presentQueue), old(data.renderFinishedSemaphores[frame]),
                                                           old(data.swapchain), k)]
                && unchanged(data)
                && gpu.live == old(gpu.live) && gpu.next == old(gpu.next)
                && gpu.recording == old(gpu.recording) && gpu.invalidFrees == old(gpu.invalidFrees)
      ensures r == Pass ==> ReadyToRender()
    {
      gpu.FrameCall(QueuePresent(data.presentQueue, data.renderFinishedSemaphores[frame], data.swapchain, k));
      if resized || Changed(present) {
        resized := false;
        r := RecreateSwapchain(config);
        if r.Fail? {
          return;
        }
      } else if present.PresentFailed? {
        return Fail(ApiError(present.code));
      }
      frame := (frame + 1) % MAX_FRAMES_IN_FLIGHT;
      r := Pass;
    }

    /** The seven commands of one instance's draw, recorded into a freshly begun `cb`. */
    method RecordSecondary(cb: Handle, imageIndex: nat)
      requires imageIndex < |data.descriptorSets| && gpu.Contents(cb) == [] && cb in gpu.recording
      modifies gpu`recording
      ensures gpu.recording == old(gpu.recording)[cb := SecondaryCommands(data, imageIndex)]
    {
      gpu.Record(cb, BindPipeline(data.pipeline));
      gpu.Record(cb, BindVertexBuffer(data.vertexBuffer));
      gpu.Record(cb, BindIndexBuffer(data.indexBuffer));
      gpu.Record(cb, BindDescriptorSet(data.pipelineLayout, data.descriptorSets[imageIndex]));
      gpu.Record(cb, PushConstants(data.pipelineLayout, VertexStage, 0, Descriptors.MAT4_SIZE));
      gpu.Record(cb, PushConstants(data.pipelineLayout, FragmentStage, Descriptors.MAT4_SIZE, OPACITY_SIZE));
      gpu.Record(cb, DrawIndexed(data.indexCount));
      assert gpu.Contents(cb) == SecondaryCommands(data, imageIndex);
    }
  }
}
