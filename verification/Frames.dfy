/** The frames of a `dig.fetchRange` stream, and what a whole sequence of them says: a shape, a `chunk_lens` array
    and a window of bytes. These definitions never mention the reader's running state. */
module Frames {
  import opened Basics

  const PAGE: nat := 2048 // MAX_CHUNK_LENS_PER_FRAME

  datatype RangeFrame = RangeFrame(
    offset: nat, bytes: Bytes, complete: bool, root: Option<string>, totalLength: Option<nat>,
    chunkCount: Option<nat>, chunkIndex: Option<nat>, chunkLens: Option<seq<nat>>, chunkLensOffset: Option<nat>,
    inclusionProof: Option<string>)
  {
    /** The entries this frame carries, and the entry they begin at; an unstamped page begins at 0. */
    function Page(): seq<nat> { if chunkLens.Some? then chunkLens.value else [] }

    function PageStart(): nat { if chunkLensOffset.Some? then chunkLensOffset.value else 0 }

    function PageEnd(): nat { Min(PageStart() + |Page()|, U64_MAX) }

    /** Whether the frame, as a stream's first, declares more entries than it carries. */
    predicate Paged() { chunkCount.Some? && chunkCount.value > |Page()| }
  }

  /** A later value agrees with the first frame's, or is omitted. */
  predicate Unrevised<T(==)>(committed: Option<T>, declared: Option<T>) {
    declared.Some? ==> declared == committed
  }

  /** `later` may follow `earlier`: its chunk index does not rewind, and its page covers nothing covered before. */
  predicate Follows(earlier: RangeFrame, later: RangeFrame) {
    && (earlier.chunkIndex.Some? && later.chunkIndex.Some? ==> earlier.chunkIndex.value <= later.chunkIndex.value)
    && (earlier.chunkLens.Some? && later.chunkLens.Some? ==> earlier.PageEnd() <= later.PageStart())
  }

  /** A later frame restates nothing of the first frame differently, and no once-per-stream field at all. */
  predicate Restates(first: RangeFrame, later: RangeFrame) {
    && Unrevised(first.root, later.root) && Unrevised(first.totalLength, later.totalLength)
    && Unrevised(first.chunkCount, later.chunkCount) && later.inclusionProof.None?
    && (later.chunkLens.Some? ==> first.PageEnd() <= later.PageStart())
  }

  /** The frames, pairwise, declare one and the same resource. */
  ghost predicate Coherent(frames: seq<RangeFrame>) {
    && (forall k :: 0 < k < |frames| ==> Restates(frames[0], frames[k]))
    && (forall j, k :: 0 <= j < k < |frames| ==> Follows(frames[j], frames[k]))
  }

  /** Entries the frames carry, in order of arrival. */
  function Pages(frames: seq<RangeFrame>): seq<nat> {
    if frames == [] then [] else Pages(frames[..|frames| - 1]) + frames[|frames| - 1].Page()
  }

  /** Every page begins where the pages before it end. */
  ghost predicate PagesInOrder(frames: seq<RangeFrame>) {
    forall k :: 0 <= k < |frames| && frames[k].chunkLens.Some? ==> frames[k].PageStart() == |Pages(frames[..k])|
  }

  /** How many of the frames carry a page. */
  function PageCount(frames: seq<RangeFrame>): nat {
    if frames == [] then 0
    else PageCount(frames[..|frames| - 1]) + if frames[|frames| - 1].chunkLens.Some? then 1 else 0
  }

  /** The data bytes, in order of arrival. */
  function Data(frames: seq<RangeFrame>): Bytes {
    if frames == [] then [] else Data(frames[..|frames| - 1]) + frames[|frames| - 1].bytes
  }

  predicate Covers(f: RangeFrame, p: nat) { f.offset <= p < f.offset + |f.bytes| }

  /** The byte the last frame covering `p` gives it, or zero if none does. */
  function ByteAt(frames: seq<RangeFrame>, p: nat): Byte {
    if frames == [] then 0
    else
      var last := frames[|frames| - 1];
      if Covers(last, p) then last.bytes[p - last.offset] else ByteAt(frames[..|frames| - 1], p)
  }

  /** One past the last byte `f` reaches of a window of `maxLen` bytes. */
  function End(f: RangeFrame, maxLen: nat): nat { Min(f.offset + |f.bytes|, maxLen) }

  function Reach(frames: seq<RangeFrame>, maxLen: nat): (n: nat)
    ensures n <= maxLen
    ensures forall f :: f in frames ==> End(f, maxLen) <= n
  {
    if frames == [] then 0
    else
      assert frames == frames[..|frames| - 1] + [frames[|frames| - 1]];
      Max(Reach(frames[..|frames| - 1], maxLen), End(frames[|frames| - 1], maxLen))
  }

  /** The window of `maxLen` bytes the frames fill, as far as they reach. */
  function Painted(frames: seq<RangeFrame>, maxLen: nat): (window: Bytes)
    ensures |window| == Reach(frames, maxLen)
  {
    seq(Reach(frames, maxLen), p requires 0 <= p => ByteAt(frames, p))
  }

  lemma PaintedStep(frames: seq<RangeFrame>, f: RangeFrame, maxLen: nat)
    requires f.offset < maxLen
    ensures Painted(frames + [f], maxLen) ==
            Splice(Painted(frames, maxLen), f.offset, f.bytes[..End(f, maxLen) - f.offset])
  {
    var (was, data) := (Painted(frames, maxLen), f.bytes[..End(f, maxLen) - f.offset]);
    var (now, spliced) := (Painted(frames + [f], maxLen), Splice(was, f.offset, data));
    assert (frames + [f])[..|frames|] == frames;
    assert spliced[f.offset..f.offset + |data|] == data;
    forall p | 0 <= p < |now| ensures now[p] == spliced[p] {
      if f.offset <= p < f.offset + |data| {
        assert spliced[p] == spliced[f.offset..f.offset + |data|][p - f.offset];
      } else if p >= |was| {
        Unreached(frames, maxLen, p);
      }
    }
  }

  lemma {:induction false} Unreached(frames: seq<RangeFrame>, maxLen: nat, p: nat)
    requires Reach(frames, maxLen) <= p < maxLen
    ensures ByteAt(frames, p) == 0
  {
    if frames != [] {
      Unreached(frames[..|frames| - 1], maxLen, p);
    }
  }

  /** A stream's declared shape as the reader tracks it. */
  datatype Identity = Identity(
    root: Option<string>, totalLength: Option<nat>, chunkCount: Option<nat>, highestChunkIndex: Option<nat>,
    prologueFrontier: nat)

  /** The last chunk index stated. */
  function LastIndex(frames: seq<RangeFrame>): Option<nat> {
    if frames == [] then None
    else if frames[|frames| - 1].chunkIndex.Some? then frames[|frames| - 1].chunkIndex
    else LastIndex(frames[..|frames| - 1])
  }

  /** The end of the last page; the first frame counts as carrying one, possibly empty. */
  function Frontier(frames: seq<RangeFrame>): nat
    requires frames != []
  {
    var last := frames[|frames| - 1];
    if |frames| == 1 || last.chunkLens.Some? then last.PageEnd() else Frontier(frames[..|frames| - 1])
  }

  function IdentityOf(frames: seq<RangeFrame>): Identity
    requires frames != []
  {
    Identity(frames[0].root, frames[0].totalLength, frames[0].chunkCount, LastIndex(frames), Frontier(frames))
  }

  /** Comparing a frame with the last index and the frontier is as good as comparing it with every earlier frame. */
  lemma OneMoreFrame(frames: seq<RangeFrame>, f: RangeFrame)
    requires frames != [] && Coherent(frames)
    ensures Coherent(frames + [f]) <==>
            && Unrevised(frames[0].root, f.root) && Unrevised(frames[0].totalLength, f.totalLength)
            && Unrevised(frames[0].chunkCount, f.chunkCount) && f.inclusionProof.None?
            && (f.chunkIndex.Some? && LastIndex(frames).Some? ==> LastIndex(frames).value <= f.chunkIndex.value)
            && (f.chunkLens.Some? ==> Frontier(frames) <= f.PageStart())
  {
    var all := frames + [f];
    LastIndexIsHighest(frames);
    FrontierIsFurthest(frames);
    if Coherent(all) {
      assert Restates(all[0], all[|frames|]);
      assert forall j :: 0 <= j < |frames| ==> Follows(all[j], all[|frames|]);
      assert forall j :: 0 <= j < |frames| ==> all[j] == frames[j];
    } else if Unrevised(frames[0].root, f.root) && Unrevised(frames[0].totalLength, f.totalLength)
              && Unrevised(frames[0].chunkCount, f.chunkCount) && f.inclusionProof.None? {
      assert forall j, k :: 0 <= j < k < |frames| ==> Follows(all[j], all[k]) by {
        assert forall j, k :: 0 <= j < k < |frames| ==> Follows(frames[j], frames[k]);
      }
    }
  }

  /** Some frame stated it, and none stated a higher one. */
  lemma {:induction false} LastIndexIsHighest(frames: seq<RangeFrame>)
    requires Coherent(frames)
    ensures LastIndex(frames).Some? ==> exists j :: 0 <= j < |frames| && frames[j].chunkIndex == LastIndex(frames)
    ensures forall j :: 0 <= j < |frames| && frames[j].chunkIndex.Some? ==>
                          LastIndex(frames).Some? && frames[j].chunkIndex.value <= LastIndex(frames).value
  {
    if frames != [] {
      var (init, last) := (frames[..|frames| - 1], frames[|frames| - 1]);
      LastIndexIsHighest(init);
      assert forall j :: 0 <= j < |init| ==> Follows(frames[j], frames[|frames| - 1]);
      assert forall j :: 0 <= j < |init| ==> init[j] == frames[j];
    }
  }

  /** Some frame's page ends there, and no page ends later. */
  lemma {:induction false} FrontierIsFurthest(frames: seq<RangeFrame>)
    requires frames != [] && Coherent(frames)
    ensures frames[0].PageEnd() <= Frontier(frames)
    ensures forall j :: 0 <= j < |frames| && frames[j].chunkLens.Some? ==> frames[j].PageEnd() <= Frontier(frames)
    ensures exists j :: 0 <= j < |frames| && (j == 0 || frames[j].chunkLens.Some?)
                        && frames[j].PageEnd() == Frontier(frames)
  {
    if |frames| > 1 {
      var (init, last) := (frames[..|frames| - 1], frames[|frames| - 1]);
      FrontierIsFurthest(init);
      assert forall j :: 0 <= j < |init| ==> Follows(frames[j], frames[|frames| - 1]);
      assert forall j :: 0 <= j < |init| ==> init[j] == frames[j];
      assert Restates(frames[0], frames[|frames| - 1]);
    }
  }
}
