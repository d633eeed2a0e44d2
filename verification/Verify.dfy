/** `src/verify.rs`: the resource commitment and the per-range and whole-resource checks. */
module Verify {
  import opened Basics
  import opened Plan

  datatype ResourceCommitment = ResourceCommitment(
    layout: ChunkLayout, totalLength: nat, root: Option<string>, inclusionProof: Option<string>)
  {
    ghost predicate Valid() {
      layout.Valid() && layout.TotalLength() == totalLength <= U64_MAX
    }
  }

  /** Builds a commitment from first-frame metadata; the declared size is bounded before a layout exists. */
  method FromFirstFrameBounded(totalLength: nat, chunkLens: seq<nat>, root: Option<string>,
                               inclusionProof: Option<string>, maxResourceSize: nat)
    returns (r: Result<ResourceCommitment, DownloadError>)
    ensures r.Ok? <==>
              && totalLength <= Min(maxResourceSize, U64_MAX) && |chunkLens| <= MAX_RESOURCE_CHUNK_COUNT
              && Offset(chunkLens, |chunkLens|) == totalLength
    ensures r.Ok? ==>
              && r.value.Valid() && r.value.totalLength == totalLength && r.value.layout.chunkLens == chunkLens
              && r.value.root == root && r.value.inclusionProof == inclusionProof
  {
    if totalLength > maxResourceSize {
      return Err(DownloadError.Verify);
    }
    var layout := TryNew(chunkLens);
    if layout.Err? || layout.value.TotalLength() != totalLength {
      return Err(DownloadError.Verify);
    }
    return Ok(ResourceCommitment(layout.value, totalLength, root, inclusionProof));
  }

  /** Metadata a holder's frame stream declares about the whole resource; an unstated field is not compared. */
  datatype RangeMeta = RangeMeta(
    totalLength: Option<nat>, chunkLens: Option<seq<nat>>, chunkCount: Option<nat>, chunkIndex: Option<nat>,
    root: Option<string>, inclusionProof: Option<string>)

  predicate Consistent(c: ResourceCommitment, meta: RangeMeta) {
    && (meta.totalLength.Some? ==> meta.totalLength.value == c.totalLength)
    && (meta.chunkLens.Some? ==> meta.chunkLens.value == c.layout.chunkLens)
    && (meta.root.Some? && c.root.Some? ==> meta.root == c.root)
  }

  /** `meta` states, of what a commitment fixes, something else than `c` does. */
  ghost predicate Contradicts(c: ResourceCommitment, meta: RangeMeta) {
    || (meta.totalLength.Some? && meta.totalLength != Some(c.totalLength))
    || (meta.chunkLens.Some? && meta.chunkLens != Some(c.layout.chunkLens))
    || (meta.root.Some? && c.root.Some? && meta.root != c.root)
  }

  /** `verify_range`: exact planned length first, then chunk alignment. */
  predicate VerifyRange(c: ResourceCommitment, firstChunk: nat, expectedLen: nat, bytes: Bytes) {
    && |bytes| == expectedLen
    && firstChunk < |c.layout.chunkLens|
    && firstChunk < |c.layout.offsets|
    && c.layout.ChunksForRange(c.layout.offsets[firstChunk], |bytes|).Some?
  }

  type ProofVerifier = (string, Option<string>, Option<string>) -> bool

  /** `verify_resource_leaf`: the whole length was hashed, and the leaf is committed under the root. */
  predicate VerifyResourceLeaf(proof: ProofVerifier, c: ResourceCommitment, leaf: string, assembledLen: nat) {
    assembledLen == c.totalLength && proof(leaf, c.inclusionProof, c.root)
  }

  /** For a planned range the per-range check accepts any bytes of the planned length, and nothing else. */
  lemma PlannedRangeCheck(c: ResourceCommitment, ranges: seq<Range>, k: nat, bytes: Bytes)
    requires c.Valid() && Tiles(ranges, c.layout.chunkLens) && k < |ranges|
    ensures VerifyRange(c, ranges[k].chunkStart, ranges[k].length, bytes) <==> |bytes| == ranges[k].length
  {
    var (lens, r) := (c.layout.chunkLens, ranges[k]);
    OffsetMonotone(lens, r.chunkStart, r.chunkEnd);
    OffsetMonotone(lens, r.chunkEnd, |lens|);
    BoundariesFound(c.layout, r.chunkStart, r.chunkEnd);
  }

  lemma BoundariesFound(layout: ChunkLayout, i: nat, j: nat)
    requires layout.Valid() && i <= j <= |layout.chunkLens| && layout.TotalLength() <= U64_MAX
    ensures layout.ChunksForRange(layout.offsets[i], Span(layout.chunkLens, i, j)).Some?
  {
    var (lens, offsets) := (layout.chunkLens, layout.offsets);
    OffsetMonotone(lens, j, |lens|);
    assert offsets[i] in offsets[0..] && offsets[j] in offsets[0..];
    var (s, e) := (Position(offsets, offsets[i], 0).value, Position(offsets, offsets[j], 0).value);
    assert e < s ==> offsets[e] in offsets[0..s];
    OffsetMonotone(lens, i, j);
    if e < s {
      OffsetMonotone(lens, e, s);
    }
  }
}
