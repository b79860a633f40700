/** Mip-chain generation for a texture image (scenes/mipmaps.rs): every level is produced from
    the previous one by a linear-filtered blit, inside one one-time command buffer.  Image
    layouts are tracked per mip level. */
module Mipmaps {
  import opened Vk
  import opened AppState
  import Buffers

  /** `SAMPLED_IMAGE_FILTER_LINEAR` of the format feature flags. */
  const FORMAT_FEATURE_SAMPLED_IMAGE_FILTER_LINEAR: Flags := 0x1000

  /** The update at the end of each iteration: a dimension above 1 is halved (rounding down),
      otherwise it is left as it is. */
  function Shrunk(d: nat): nat {
    if d > 1 then d / 2 else d
  }

  /** The destination extent of a blit: half the source dimension, or 1 when it is at most 1. */
  function BlitTarget(d: nat): nat {
    if d > 1 then d / 2 else 1
  }

  /** The value of `mip_width` (or `mip_height`) after `i` iterations, starting from `d`. */
  function MipExtent(d: nat, i: nat): nat {
    if i == 0 then d else Shrunk(MipExtent(d, i - 1))
  }

  function Pow2(i: nat): (r: nat)
    ensures r >= 1
  {
    if i == 0 then 1 else 2 * Pow2(i - 1)
  }

  function Max(a: int, b: int): int {
    if a < b then b else a
  }

  /** Iteration `i` (1-based): level `i - 1` goes from transfer destination to transfer source,
      then it is blitted, at extent `width` x `height`, onto level `i`. */
  function Iteration(image: Handle, width: nat, height: nat, i: nat): seq<Cmd>
    requires i >= 1
  {
    [PipelineBarrier(TransferStage, TransferStage,
                     ImageBarrier(image, i - 1, TransferDstOptimal, TransferSrcOptimal, TransferWrite, TransferRead)),
     BlitImage(image, TransferSrcOptimal, image, TransferDstOptimal,
               Blit(i - 1, Extent(width, height), i, Extent(BlitTarget(width), BlitTarget(height))))]
  }

  /** The commands of the first `k` iterations for a base level of `width` x `height`. */
  function Iterations(image: Handle, width: nat, height: nat, k: nat): (cmds: seq<Cmd>)
    ensures |cmds| == 2 * k
  {
    if k == 0 then []
    else Iterations(image, width, height, k - 1)
         + Iteration(image, MipExtent(width, k - 1), MipExtent(height, k - 1), k)
  }

  /** The barrier after the loop: the last level goes from transfer destination to shader read. */
  function FinalBarrier(image: Handle, mipLevels: nat): Cmd
    requires mipLevels >= 1
  {
    PipelineBarrier(TransferStage, FragmentShaderStage,
                    ImageBarrier(image, mipLevels - 1, TransferDstOptimal, ShaderReadOnlyOptimal, TransferWrite, ShaderRead))
  }

  /** Everything `generate_mipmaps` records into its one-time command buffer. */
  function MipCommands(image: Handle, width: nat, height: nat, mipLevels: nat): (cmds: seq<Cmd>)
    requires mipLevels >= 1
    ensures |cmds| == 2 * mipLevels - 1
  {
    Iterations(image, width, height, mipLevels - 1) + [FinalBarrier(image, mipLevels)]
  }

  /** Checks that the format supports linear blits, then records the whole mip chain into a
      one-time command buffer and submits it.  Nothing is begun when the check fails. */
  method GenerateMipmaps(gpu: Gpu, data: AppData, image: Handle, formatFeatures: Flags,
                         width: nat, height: nat, mipLevels: nat) returns (r: Outcome)
    requires gpu.Valid() && mipLevels >= 1
    modifies gpu`live, gpu`next, gpu`log, gpu`recording
    ensures gpu.Valid()
    ensures r == Pass <==> Contains(formatFeatures, FORMAT_FEATURE_SAMPLED_IMAGE_FILTER_LINEAR)
    ensures r.Fail? ==> r.error == UnsupportedBlitFormat && unchanged(gpu)
    ensures r == Pass ==>
              var cb := old(gpu.next);
              && gpu.next == old(gpu.next) + 1 && gpu.live == old(gpu.live)
              && gpu.recording == old(gpu.recording)[cb := MipCommands(image, width, height, mipLevels)]
              && gpu.log == old(gpu.log) + Buffers.OneTimeSubmission(cb, data.graphicsQueue,
                                                                       MipCommands(image, width, height, mipLevels))
  {
    if !Contains(formatFeatures, FORMAT_FEATURE_SAMPLED_IMAGE_FILTER_LINEAR) {
      return Fail(UnsupportedBlitFormat);
    }
    var cb := Buffers.BeginOnetimeCommand(gpu, data);
    RecordMipChain(gpu, cb, image, width, height, mipLevels);
    assert [] + MipCommands(image, width, height, mipLevels) == MipCommands(image, width, height, mipLevels);
    Buffers.EndOnetimeCommand(gpu, data, cb);
    r := Pass;
  }

  /** The loop over levels `1 .. mipLevels` and the final barrier, recorded into `cb`. */
  method RecordMipChain(gpu: Gpu, cb: Handle, image: Handle, width: nat, height: nat, mipLevels: nat)
    requires mipLevels >= 1 && cb in gpu.recording
    modifies gpu`recording
    ensures gpu.recording == old(gpu.recording)[cb := old(gpu.Contents(cb)) + MipCommands(image, width, height, mipLevels)]
  {
    ghost var before := gpu.Contents(cb);
    var barrier := ImageBarrier(image, 0, Undefined, Undefined, TransferWrite, TransferWrite);
    var mipWidth, mipHeight := width, height;
    var i := 1;
    assert before + Iterations(image, width, height, 0) == before == gpu.recording[cb];
    while i < mipLevels
      invariant 1 <= i <= mipLevels
      invariant mipWidth == MipExtent(width, i - 1) && mipHeight == MipExtent(height, i - 1)
      invariant barrier.image == image
      invariant gpu.recording == old(gpu.recording)[cb := before + Iterations(image, width, height, i - 1)]
    {
      barrier := barrier.(level := i - 1, oldLayout := TransferDstOptimal, newLayout := TransferSrcOptimal,
                          srcAccess := TransferWrite, dstAccess := TransferRead);
      gpu.Record(cb, PipelineBarrier(TransferStage, TransferStage, barrier));
      assert gpu.Contents(cb) == before + Iterations(image, width, height, i - 1) + [Iteration(image, mipWidth, mipHeight, i)[0]];
      var blit := Blit(i - 1, Extent(mipWidth, mipHeight), i,
                       Extent(if mipWidth > 1 then mipWidth / 2 else 1, if mipHeight > 1 then mipHeight / 2 else 1));
      gpu.Record(cb, BlitImage(image, TransferSrcOptimal, image, TransferDstOptimal, blit));
      assert gpu.Contents(cb) == before + Iterations(image, width, height, i - 1) + Iteration(image, mipWidth, mipHeight, i);
      assert before + Iterations(image, width, height, i)
          == before + Iterations(image, width, height, i - 1) + Iteration(image, mipWidth, mipHeight, i);
      if mipWidth > 1 {
        mipWidth := mipWidth / 2;
      }
      if mipHeight > 1 {
        mipHeight := mipHeight / 2;
      }
      i := i + 1;
    }
    barrier := barrier.(level := mipLevels - 1, oldLayout := TransferDstOptimal, newLayout := ShaderReadOnlyOptimal,
                        srcAccess := TransferWrite, dstAccess := ShaderRead);
    gpu.Record(cb, PipelineBarrier(TransferStage, FragmentShaderStage, barrier));
    assert before + Iterations(image, width, height, mipLevels - 1) + [FinalBarrier(image, mipLevels)]
        == before + MipCommands(image, width, height, mipLevels);
  }

  // ----- Extents -----

  /** From a base dimension of at least 1 the tracked dimension never falls below 1 and
      never grows. */
  lemma {:induction false} MipExtentBounds(d: nat, i: nat)
    requires d >= 1
    ensures 1 <= MipExtent(d, i + 1) <= MipExtent(d, i) <= d
  {
    if i > 0 {
      MipExtentBounds(d, i - 1);
    }
  }

  /** The destination extent of the blit of iteration `i + 1` is the extent tracked for level
      `i + 1`: each blit writes exactly the next level's size. */
  lemma BlitTargetIsNextLevel(d: nat, i: nat)
    requires d >= 1
    ensures BlitTarget(MipExtent(d, i)) == MipExtent(d, i + 1)
  {
    MipExtentBounds(d, i);
  }

  /** A base dimension of 0 is never corrected by the loop: the blits write extent 1 while
      the tracked dimension stays 0. */
  lemma ZeroExtentStaysZero(i: nat)
    ensures MipExtent(0, i) == 0 && BlitTarget(MipExtent(0, i)) == 1
  {
    if i > 0 {
      ZeroExtentStaysZero(i - 1);
    }
  }

  lemma MulAtLeast(p: nat, x: int)
    requires x >= 1
    ensures p * x >= p
  {
    if x > 1 {
      MulAtLeast(p, x - 1);
      assert p * x == p * (x - 1) + p;
    }
  }

  /** Quotient and remainder are unique. */
  lemma DivisionUnique(a: int, p: int, q: int, s: int)
    requires p > 0 && 0 <= s < p && a == p * q + s
    ensures a / p == q
  {
    var d, m := a / p, a % p;
    assert a == p * d + m && 0 <= m < p;
    if d > q {
      MulAtLeast(p, d - q);
    } else if d < q {
      MulAtLeast(p, q - d);
    }
  }

  /** Halving the quotient by `p` is the quotient by `2p`. */
  lemma HalfOfQuotient(a: nat, p: nat)
    requires p > 0
    ensures (a / p) / 2 == a / (2 * p)
  {
    var q: int, s: int := a / (2 * p), a % (2 * p);
    DoubleDivisor(a, p, q, s);
    if s < p {
      DivisionUnique(a, p, 2 * q, s);
      DivisionUnique(a / p, 2, q, 0);
    } else {
      DivisionUnique(a, p, 2 * q + 1, s - p);
      DivisionUnique(a / p, 2, q, 1);
    }
  }

  /** Quotient `q` and remainder `s` by `2p` give a quotient and remainder by `p`. */
  lemma DoubleDivisor(a: int, p: int, q: int, s: int)
    requires p > 0 && q == a / (2 * p) && s == a % (2 * p)
    ensures 0 <= s < 2 * p
    ensures s < p ==> a == p * (2 * q) + s
    ensures s >= p ==> a == p * (2 * q + 1) + (s - p)
  {
    assert a == (2 * p) * q + s;
    assert (2 * p) * q == p * (2 * q);
    assert p * (2 * q + 1) == p * (2 * q) + p;
  }

  /** After `i` iterations the tracked dimension is `max(1, d div 2^i)`. */
  lemma {:induction false} MipExtentClosedForm(d: nat, i: nat)
    requires d >= 1
    ensures MipExtent(d, i) == Max(1, d / Pow2(i))
  {
    if i > 0 {
      MipExtentClosedForm(d, i - 1);
      HalfOfQuotient(d, Pow2(i - 1));
    }
  }

  // ----- Layouts -----

  /** The effect of one command on the layouts of the levels of `image`, or `None` when the
      command does not find a level in the layout it names: a barrier's old layout, a blit's
      source and destination layouts. */
  function Step(image: Handle, layouts: seq<ImageLayout>, cmd: Cmd): Option<seq<ImageLayout>> {
    match cmd
    case PipelineBarrier(_, _, b) =>
      if b.image != image then Some(layouts)
      else if b.level < |layouts| && layouts[b.level] == b.oldLayout then Some(layouts[b.level := b.newLayout])
      else None
    case BlitImage(src, srcLayout, dst, dstLayout, blit) =>
      if (src == image && !(blit.srcLevel < |layouts| && layouts[blit.srcLevel] == srcLayout))
         || (dst == image && !(blit.dstLevel < |layouts| && layouts[blit.dstLevel] == dstLayout))
      then None
      else Some(layouts)
    case _ => Some(layouts)
  }

  /** The layouts after executing `cmds` in order from `layouts`. */
  function Execute(image: Handle, layouts: seq<ImageLayout>, cmds: seq<Cmd>): Option<seq<ImageLayout>> {
    if cmds == [] then Some(layouts)
    else match Execute(image, layouts, cmds[..|cmds| - 1])
         case None => None
         case Some(current) => Step(image, current, cmds[|cmds| - 1])
  }

  /** Every level in `layout`. */
  function Uniform(mipLevels: nat, layout: ImageLayout): (r: seq<ImageLayout>)
    ensures |r| == mipLevels
  {
    seq(mipLevels, j => layout)
  }

  /** Level `j` is in layout `below` for `j < k` and in `from` from `k` on. */
  function Levels(mipLevels: nat, k: nat, below: ImageLayout, from: ImageLayout): (r: seq<ImageLayout>)
    ensures |r| == mipLevels
  {
    seq(mipLevels, j => if j < k then below else from)
  }

  /** Executing one more command continues from the layouts reached so far. */
  lemma ExecuteAppend(image: Handle, layouts: seq<ImageLayout>, cmds: seq<Cmd>, cmd: Cmd, reached: seq<ImageLayout>)
    requires Execute(image, layouts, cmds) == Some(reached)
    ensures Execute(image, layouts, cmds + [cmd]) == Step(image, reached, cmd)
  {
    assert (cmds + [cmd])[..|cmds|] == cmds;
  }

  /** Iteration `k` finds level `k - 1` in transfer-destination layout and makes it a transfer
      source, then blits from it onto level `k`, still a transfer destination. */
  lemma IterationLayouts(image: Handle, width: nat, height: nat, mipLevels: nat, k: nat)
    requires 1 <= k < mipLevels
    ensures var step := Iteration(image, width, height, k);
            && Step(image, Levels(mipLevels, k - 1, TransferSrcOptimal, TransferDstOptimal), step[0])
               == Some(Levels(mipLevels, k, TransferSrcOptimal, TransferDstOptimal))
            && Step(image, Levels(mipLevels, k, TransferSrcOptimal, TransferDstOptimal), step[1])
               == Some(Levels(mipLevels, k, TransferSrcOptimal, TransferDstOptimal))
  {
    assert Levels(mipLevels, k - 1, TransferSrcOptimal, TransferDstOptimal)[k - 1 := TransferSrcOptimal]
        == Levels(mipLevels, k, TransferSrcOptimal, TransferDstOptimal);
  }

  /** Starting with every level in transfer-destination layout, each of the first `k`
      iterations finds its levels in the layouts it names, and afterwards levels `0 .. k` are
      transfer sources and the rest still transfer destinations. */
  lemma {:induction false} IterationsLayouts(image: Handle, width: nat, height: nat, mipLevels: nat, k: nat)
    requires k < mipLevels
    ensures Execute(image, Uniform(mipLevels, TransferDstOptimal), Iterations(image, width, height, k))
            == Some(Levels(mipLevels, k, TransferSrcOptimal, TransferDstOptimal))
  {
    var start := Uniform(mipLevels, TransferDstOptimal);
    if k == 0 {
      assert start == Levels(mipLevels, 0, TransferSrcOptimal, TransferDstOptimal);
    } else {
      var prefix := Iterations(image, width, height, k - 1);
      var step := Iteration(image, MipExtent(width, k - 1), MipExtent(height, k - 1), k);
      IterationsLayouts(image, width, height, mipLevels, k - 1);
      IterationLayouts(image, MipExtent(width, k - 1), MipExtent(height, k - 1), mipLevels, k);
      ExecuteAppend(image, start, prefix, step[0], Levels(mipLevels, k - 1, TransferSrcOptimal, TransferDstOptimal));
      ExecuteAppend(image, start, prefix + [step[0]], step[1], Levels(mipLevels, k, TransferSrcOptimal, TransferDstOptimal));
      assert prefix + [step[0]] + [step[1]] == Iterations(image, width, height, k);
    }
  }

  /** The whole chain is valid from all levels in transfer-destination layout, and it leaves
      the last level in shader-read layout and every other level in transfer-source layout. */
  lemma MipCommandsLayouts(image: Handle, width: nat, height: nat, mipLevels: nat)
    requires mipLevels >= 1
    ensures Execute(image, Uniform(mipLevels, TransferDstOptimal), MipCommands(image, width, height, mipLevels))
            == Some(Levels(mipLevels, mipLevels - 1, TransferSrcOptimal, ShaderReadOnlyOptimal))
  {
    var cmds := MipCommands(image, width, height, mipLevels);
    var loop := Iterations(image, width, height, mipLevels - 1);
    IterationsLayouts(image, width, height, mipLevels, mipLevels - 1);
    assert cmds[..|cmds| - 1] == loop;
    assert Levels(mipLevels, mipLevels - 1, TransferSrcOptimal, TransferDstOptimal)[mipLevels - 1 := ShaderReadOnlyOptimal]
        == Levels(mipLevels, mipLevels - 1, TransferSrcOptimal, ShaderReadOnlyOptimal);
  }

  /** With more than one level, level 0, the only level the texture view exposes, is left in
      transfer-source layout rather than shader-read layout. */
  lemma MipCommandsLeaveBaseLevelUnreadable(image: Handle, width: nat, height: nat, mipLevels: nat)
    requires mipLevels >= 2
    ensures var after := Execute(image, Uniform(mipLevels, TransferDstOptimal), MipCommands(image, width, height, mipLevels));
            after.Some? && after.value[0] == TransferSrcOptimal && after.value != Uniform(mipLevels, ShaderReadOnlyOptimal)
  {
    MipCommandsLayouts(image, width, height, mipLevels);
    assert Uniform(mipLevels, ShaderReadOnlyOptimal)[0] == ShaderReadOnlyOptimal;
  }

  // ----- The chain with every level made readable -----

  /** Iteration `i` followed by the barrier that hands level `i - 1`, once blitted from, to the
      fragment shader. */
  function IntendedIteration(image: Handle, width: nat, height: nat, i: nat): seq<Cmd>
    requires i >= 1
  {
    Iteration(image, width, height, i)
    + [PipelineBarrier(TransferStage, FragmentShaderStage,
                       ImageBarrier(image, i - 1, TransferSrcOptimal, ShaderReadOnlyOptimal, TransferRead, ShaderRead))]
  }

  function IntendedIterations(image: Handle, width: nat, height: nat, k: nat): (cmds: seq<Cmd>)
    ensures |cmds| == 3 * k
  {
    if k == 0 then []
    else IntendedIterations(image, width, height, k - 1)
         + IntendedIteration(image, MipExtent(width, k - 1), MipExtent(height, k - 1), k)
  }

  function IntendedMipCommands(image: Handle, width: nat, height: nat, mipLevels: nat): (cmds: seq<Cmd>)
    requires mipLevels >= 1
    ensures |cmds| == 3 * mipLevels - 2
  {
    IntendedIterations(image, width, height, mipLevels - 1) + [FinalBarrier(image, mipLevels)]
  }

  /** The three commands of an intended iteration take level `k - 1` from transfer destination
      through transfer source to shader read, with the blit in between. */
  lemma IntendedIterationLayouts(image: Handle, width: nat, height: nat, mipLevels: nat, k: nat)
    requires 1 <= k < mipLevels
    ensures var step := IntendedIteration(image, width, height, k);
            var mid := Levels(mipLevels, k - 1, ShaderReadOnlyOptimal, TransferDstOptimal)[k - 1 := TransferSrcOptimal];
            && Step(image, Levels(mipLevels, k - 1, ShaderReadOnlyOptimal, TransferDstOptimal), step[0]) == Some(mid)
            && Step(image, mid, step[1]) == Some(mid)
            && Step(image, mid, step[2]) == Some(Levels(mipLevels, k, ShaderReadOnlyOptimal, TransferDstOptimal))
  {
    var mid := Levels(mipLevels, k - 1, ShaderReadOnlyOptimal, TransferDstOptimal)[k - 1 := TransferSrcOptimal];
    assert mid[k - 1 := ShaderReadOnlyOptimal] == Levels(mipLevels, k, ShaderReadOnlyOptimal, TransferDstOptimal);
  }

  lemma {:induction false} IntendedIterationsLayouts(image: Handle, width: nat, height: nat, mipLevels: nat, k: nat)
    requires k < mipLevels
    ensures Execute(image, Uniform(mipLevels, TransferDstOptimal), IntendedIterations(image, width, height, k))
            == Some(Levels(mipLevels, k, ShaderReadOnlyOptimal, TransferDstOptimal))
  {
    var start := Uniform(mipLevels, TransferDstOptimal);
    if k == 0 {
      assert start == Levels(mipLevels, 0, ShaderReadOnlyOptimal, TransferDstOptimal);
    } else {
      var prefix := IntendedIterations(image, width, height, k - 1);
      var step := IntendedIteration(image, MipExtent(width, k - 1), MipExtent(height, k - 1), k);
      var mid := Levels(mipLevels, k - 1, ShaderReadOnlyOptimal, TransferDstOptimal)[k - 1 := TransferSrcOptimal];
      IntendedIterationsLayouts(image, width, height, mipLevels, k - 1);
      IntendedIterationLayouts(image, MipExtent(width, k - 1), MipExtent(height, k - 1), mipLevels, k);
      ExecuteAppend(image, start, prefix, step[0], Levels(mipLevels, k - 1, ShaderReadOnlyOptimal, TransferDstOptimal));
      ExecuteAppend(image, start, prefix + [step[0]], step[1], mid);
      ExecuteAppend(image, start, prefix + [step[0]] + [step[1]], step[2], mid);
      assert prefix + [step[0]] + [step[1]] + [step[2]] == IntendedIterations(image, width, height, k);
    }
  }

  /** With the extra barrier every level, the last one included, ends in shader-read layout. */
  lemma IntendedMipCommandsLayouts(image: Handle, width: nat, height: nat, mipLevels: nat)
    requires mipLevels >= 1
    ensures Execute(image, Uniform(mipLevels, TransferDstOptimal), IntendedMipCommands(image, width, height, mipLevels))
            == Some(Uniform(mipLevels, ShaderReadOnlyOptimal))
  {
    var cmds := IntendedMipCommands(image, width, height, mipLevels);
    IntendedIterationsLayouts(image, width, height, mipLevels, mipLevels - 1);
    assert cmds[..|cmds| - 1] == IntendedIterations(image, width, height, mipLevels - 1);
    assert Levels(mipLevels, mipLevels - 1, ShaderReadOnlyOptimal, TransferDstOptimal)[mipLevels - 1 := ShaderReadOnlyOptimal]
        == Uniform(mipLevels, ShaderReadOnlyOptimal);
  }
}
