/** `src/plan.rs`: the chunk layout of a resource and its greedy partition into fetchable ranges. */
module Plan {
  import opened Basics

  const MAX_RESOURCE_CHUNK_COUNT: nat := 1024 * 1024

  datatype ChunkLayout = ChunkLayout(chunkLens: seq<nat>, offsets: seq<nat>) {
    /** What `try_new` establishes: `offsets` are the cumulative chunk boundaries, first 0, last the total. */
    ghost predicate Valid() {
      && |offsets| == |chunkLens| + 1
      && (forall i :: 0 <= i < |offsets| ==> offsets[i] == Offset(chunkLens, i))
    }

    function TotalLength(): nat {
      if offsets == [] then 0 else offsets[|offsets| - 1]
    }

    /** The chunk span of a byte range that starts and ends on a chunk boundary; `None` is an alignment error. */
    function ChunksForRange(offset: nat, length: nat): (r: Option<(nat, nat)>)
      ensures r.Some? ==>
                && r.value.0 <= r.value.1 < |offsets|
                && offsets[r.value.0] == offset && offsets[r.value.1] == Min(offset + length, U64_MAX)
    {
      match (Position(offsets, offset, 0), Position(offsets, Min(offset + length, U64_MAX), 0))
      case (Some(s), Some(e)) => if e < s then None else Some((s, e))
      case _ => None
    }
  }

  /** The first index at or after `from` holding `value`. */
  function Position(s: seq<nat>, value: nat, from: nat): (r: Option<nat>)
    requires from <= |s|
    ensures r.Some? ==> from <= r.value < |s| && s[r.value] == value && value !in s[from..r.value]
    ensures r.None? ==> value !in s[from..]
    decreases |s| - from
  {
    if from == |s| then None
    else if s[from] == value then Some(from)
    else Position(s, value, from + 1)
  }

  /** Builds a layout from lengths off the wire: bounded count, checked cumulative sum. */
  method TryNew(chunkLens: seq<nat>) returns (r: Result<ChunkLayout, DownloadError>)
    ensures r.Ok? <==> |chunkLens| <= MAX_RESOURCE_CHUNK_COUNT && Offset(chunkLens, |chunkLens|) <= U64_MAX
    ensures r.Ok? ==> r.value.chunkLens == chunkLens && r.value.Valid()
    ensures r.Err? ==> r.error == Verify
  {
    if |chunkLens| > MAX_RESOURCE_CHUNK_COUNT {
      return Err(Verify);
    }
    assert Offset(chunkLens, 0) == 0;
    hide Offset;
    var offsets, acc := [0], 0;
    for i := 0 to |chunkLens|
      invariant |offsets| == i + 1 && acc == Offset(chunkLens, i) <= U64_MAX
      invariant forall k :: 0 <= k <= i ==> offsets[k] == Offset(chunkLens, k)
    {
      OffsetStep(chunkLens, i);
      if acc + chunkLens[i] > U64_MAX {
        OffsetMonotone(chunkLens, i + 1, |chunkLens|);
        return Err(Verify);
      }
      acc := acc + chunkLens[i];
      offsets := offsets + [acc];
    }
    return Ok(ChunkLayout(chunkLens, offsets));
  }

  /** One planned range: whole chunks `[chunkStart, chunkEnd)`, i.e. bytes `[offset, offset + length)`. */
  datatype Range = Range(index: nat, offset: nat, length: nat, chunkStart: nat, chunkEnd: nat)

  datatype RangeState = Pending | InFlight(peer: Peer) | Done

  /** Bytes covered by chunks `[i, j)`. */
  function Span(lens: seq<nat>, i: nat, j: nat): nat
    requires i <= j <= |lens|
  {
    OffsetMonotone(lens, i, j);
    Offset(lens, j) - Offset(lens, i)
  }

  /** The packing rule for one range: within the window, or a single non-zero chunk of any size. */
  ghost predicate Fits(lens: seq<nat>, window: nat, i: nat, j: nat) {
    i < j <= |lens| && (Span(lens, i, j) <= window || exists m: nat :: LoneChunk(lens, i, m, j))
  }

  /** Chunk `m` is the only non-zero chunk of `[i, j)`. */
  ghost predicate LoneChunk(lens: seq<nat>, i: nat, m: nat, j: nat) {
    i <= m < j <= |lens| && lens[m] > 0 && forall k :: i <= k < j && k != m ==> lens[k] == 0
  }

  /** A range ending at `j` was closed only because chunk `j` would have overflowed the window. */
  ghost predicate Stopped(lens: seq<nat>, window: nat, i: nat, j: nat) {
    i < j < |lens| && Span(lens, i, j) > 0 && Span(lens, i, j) + lens[j] > window
  }

  /** What every planned range says about itself. */
  ghost predicate Describes(r: Range, lens: seq<nat>) {
    && r.chunkStart < r.chunkEnd <= |lens|
    && r.offset == Offset(lens, r.chunkStart)
    && r.length == Span(lens, r.chunkStart, r.chunkEnd)
  }

  /** The first chunk not covered by the first `k` ranges. */
  function StartOf(ranges: seq<Range>, k: nat): nat
    requires k <= |ranges|
  {
    if k == 0 then 0 else ranges[k - 1].chunkEnd
  }

  /** The ranges are consecutive runs of whole chunks from chunk 0. */
  ghost predicate Consecutive(ranges: seq<Range>, lens: seq<nat>) {
    && (forall k :: 0 <= k < |ranges| ==> ranges[k].index == k && Describes(ranges[k], lens))
    && (forall k {:trigger StartOf(ranges, k)} :: 0 <= k < |ranges| ==> ranges[k].chunkStart == StartOf(ranges, k))
  }

  /** The ranges tile the whole layout exactly, in ascending offset order. */
  ghost predicate Tiles(ranges: seq<Range>, lens: seq<nat>) {
    Consecutive(ranges, lens) && StartOf(ranges, |ranges|) == |lens|
  }

  /** Each chunk taken after the first non-zero one kept `[i, j)` within the window. */
  ghost predicate Grown(lens: seq<nat>, window: nat, i: nat, j: nat) {
    i < j <= |lens| && forall k :: i < k < j ==> Span(lens, i, k) == 0 || Span(lens, i, k + 1) <= window
  }

  /** Every range grew only while it fit, and was closed by an overflowing chunk or by the end of the layout. */
  ghost predicate Packed(ranges: seq<Range>, lens: seq<nat>, window: nat) {
    forall k :: 0 <= k < |ranges| ==>
                  && Grown(lens, window, ranges[k].chunkStart, ranges[k].chunkEnd)
                  && (ranges[k].chunkEnd < |lens| ==>
                        Stopped(lens, window, ranges[k].chunkStart, ranges[k].chunkEnd))
  }

  /** Takes at least one chunk from `start`, then whole chunks while they stay within the window. */
  method TakeRange(lens: seq<nat>, start: nat, window: nat) returns (i: nat, length: nat)
    requires start < |lens| && Offset(lens, |lens|) <= U64_MAX
    ensures Grown(lens, window, start, i) && length == Span(lens, start, i)
    ensures i < |lens| ==> Stopped(lens, window, start, i)
  {
    i, length := start, 0;
    while i < |lens|
      invariant start <= i <= |lens| && length == Span(lens, start, i)
      invariant i > start ==> Grown(lens, window, start, i)
    {
      OffsetMonotone(lens, start, i);
      OffsetMonotone(lens, i + 1, |lens|);
      if length > 0 && Min(length + lens[i], U64_MAX) > window {
        break;
      }
      length, i := Min(length + lens[i], U64_MAX), i + 1;
    }
  }

  /** `plan_ranges`: packs chunks greedily into ranges of at most `window` bytes. */
  method PlanRanges(layout: ChunkLayout, window: nat) returns (ranges: seq<Range>)
    requires layout.Valid() && layout.TotalLength() <= U64_MAX
    ensures Tiles(ranges, layout.chunkLens) && Packed(ranges, layout.chunkLens, Max(window, 1))
  {
    var i, n := 0, |layout.chunkLens|;
    ranges := [];
    while i < n
      invariant i == StartOf(ranges, |ranges|) <= n
      invariant Consecutive(ranges, layout.chunkLens) && Packed(ranges, layout.chunkLens, Max(window, 1))
      decreases n - i
    {
      var end, length := TakeRange(layout.chunkLens, i, Max(window, 1));
      var next := Range(|ranges|, layout.offsets[i], length, i, end);
      assert forall k :: 0 <= k <= |ranges| ==> StartOf(ranges + [next], k) == StartOf(ranges, k);
      ranges, i := ranges + [next], end;
    }
  }
}
