/** Choice of the multisample count for the color and depth attachments
    (scenes/sampling.rs, get_max_msaa_samples). */
module Sampling {
  import opened Vk

  /** VkSampleCountFlagBits: one bit per supported sample count. */
  const SAMPLE_COUNT_1: Flags := 0x01
  const SAMPLE_COUNT_2: Flags := 0x02
  const SAMPLE_COUNT_4: Flags := 0x04
  const SAMPLE_COUNT_8: Flags := 0x08
  const SAMPLE_COUNT_16: Flags := 0x10
  const SAMPLE_COUNT_32: Flags := 0x20
  const SAMPLE_COUNT_64: Flags := 0x40

  /** The counts tried, largest first. */
  const CANDIDATES: seq<Flags> :=
    [SAMPLE_COUNT_64, SAMPLE_COUNT_32, SAMPLE_COUNT_16, SAMPLE_COUNT_8, SAMPLE_COUNT_4, SAMPLE_COUNT_2]

  /** The candidates are strictly decreasing single bits. */
  lemma CandidatesDecreasing()
    ensures forall i, j | 0 <= i < j < |CANDIDATES| :: CANDIDATES[i] > CANDIDATES[j]
  {
  }

  /** A later candidate is never larger than an earlier one. */
  lemma CandidateOrder(i: nat, j: nat)
    requires i <= j < |CANDIDATES|
    ensures CANDIDATES[j] <= CANDIDATES[i]
  {
    if i < j {
      CandidatesDecreasing();
      assert CANDIDATES[i] > CANDIDATES[j];
    }
  }

  /** Position of the first of `CANDIDATES[i..]` that `counts` contains, or `|CANDIDATES|`
      when there is none (the iterator `find` over the candidate array). */
  function FirstContained(counts: Flags, i: nat): (k: nat)
    requires i <= |CANDIDATES|
    decreases |CANDIDATES| - i
    ensures i <= k <= |CANDIDATES|
    ensures k < |CANDIDATES| ==> Contains(counts, CANDIDATES[k])
    ensures forall j | i <= j < k :: !Contains(counts, CANDIDATES[j])
  {
    if i == |CANDIDATES| then i
    else if Contains(counts, CANDIDATES[i]) then i
    else FirstContained(counts, i + 1)
  }

  /** The sample count used for multisampling: the largest of 64, 32, 16, 8, 4, 2 supported
      both for color and for depth attachments, else 1. */
  function MaxMsaaSamples(colorCounts: Flags, depthCounts: Flags): (r: Flags)
    ensures r == SAMPLE_COUNT_1 || exists k | 0 <= k < |CANDIDATES| :: r == CANDIDATES[k]
  {
    var k := FirstContained(colorCounts & depthCounts, 0);
    if k < |CANDIDATES| then CANDIDATES[k] else SAMPLE_COUNT_1
  }

  /** A flag contained in the intersection of two masks is contained in each. */
  lemma BothContain(a: Flags, b: Flags, c: Flags)
    requires Contains(a & b, c)
    ensures Contains(a, c) && Contains(b, c)
  {
  }

  /** A count other than 1 is chosen only when both attachment kinds support it. */
  lemma MaxMsaaSamplesSupported(colorCounts: Flags, depthCounts: Flags)
    ensures var r := MaxMsaaSamples(colorCounts, depthCounts);
            r != SAMPLE_COUNT_1 ==> Contains(colorCounts, r) && Contains(depthCounts, r)
  {
    var both := colorCounts & depthCounts;
    var k := FirstContained(both, 0);
    assert MaxMsaaSamples(colorCounts, depthCounts) == if k < |CANDIDATES| then CANDIDATES[k] else SAMPLE_COUNT_1;
    if k < |CANDIDATES| {
      var f := CANDIDATES[k];
      assert Contains(both, f);
      BothContain(colorCounts, depthCounts, f);
    }
  }

  /** No candidate supported by both is larger than the chosen count. */
  lemma MaxMsaaSamplesIsLargest(colorCounts: Flags, depthCounts: Flags)
    ensures var r := MaxMsaaSamples(colorCounts, depthCounts);
            forall j | 0 <= j < |CANDIDATES| && Contains(colorCounts & depthCounts, CANDIDATES[j]) ::
              CANDIDATES[j] <= r
  {
    var both := colorCounts & depthCounts;
    var k := FirstContained(both, 0);
    assert MaxMsaaSamples(colorCounts, depthCounts) == if k < |CANDIDATES| then CANDIDATES[k] else SAMPLE_COUNT_1;
    forall j | 0 <= j < |CANDIDATES| && Contains(both, CANDIDATES[j])
      ensures k < |CANDIDATES| && CANDIDATES[j] <= CANDIDATES[k]
    {
      assert k <= j;
      CandidateOrder(k, j);
    }
  }

  /** 1 is chosen exactly when no candidate is supported by both attachment kinds. */
  lemma MaxMsaaSamplesFallback(colorCounts: Flags, depthCounts: Flags)
    ensures MaxMsaaSamples(colorCounts, depthCounts) == SAMPLE_COUNT_1 <==>
              forall j | 0 <= j < |CANDIDATES| :: !Contains(colorCounts & depthCounts, CANDIDATES[j])
  {
    var both := colorCounts & depthCounts;
    var k := FirstContained(both, 0);
    assert MaxMsaaSamples(colorCounts, depthCounts) == if k < |CANDIDATES| then CANDIDATES[k] else SAMPLE_COUNT_1;
    if k < |CANDIDATES| {
      assert CANDIDATES[k] != SAMPLE_COUNT_1;
      assert Contains(both, CANDIDATES[k]);
    }
  }

  /** The chosen value is always one single-bit flag. */
  lemma MaxMsaaSamplesIsSingleBit(colorCounts: Flags, depthCounts: Flags)
    ensures var r := MaxMsaaSamples(colorCounts, depthCounts);
            r != 0 && r & (r - 1) == 0
  {
  }
}
