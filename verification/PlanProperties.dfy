/** What the greedy plan guarantees: exact tiling, distinct offsets, and when it uses the fewest ranges. */
module PlanProperties {
  import opened Basics
  import opened Plan

  lemma StartAt(ranges: seq<Range>, lens: seq<nat>, k: nat)
    requires Consecutive(ranges, lens) && k < |ranges|
    ensures ranges[k].chunkStart == StartOf(ranges, k) <= |lens|
  {
  }

  lemma {:induction false} EndsAscend(ranges: seq<Range>, lens: seq<nat>, j: nat, k: nat)
    requires Consecutive(ranges, lens) && j < k <= |ranges|
    ensures ranges[j].chunkEnd <= StartOf(ranges, k) <= |lens|
    decreases k - j
  {
    if j + 1 < k {
      EndsAscend(ranges, lens, j, k - 1);
      assert ranges[k - 1].chunkStart == StartOf(ranges, k - 1);
    }
  }

  lemma GrownAt(lens: seq<nat>, window: nat, i: nat, j: nat, k: nat)
    requires Grown(lens, window, i, j) && i < k < j
    ensures Span(lens, i, k) == 0 || Span(lens, i, k + 1) <= window
  {
  }

  /** A range only grows past the window by holding one non-zero chunk. */
  lemma GrownFits(lens: seq<nat>, window: nat, i: nat, j: nat)
    requires Grown(lens, window, i, j)
    ensures Fits(lens, window, i, j)
  {
    if Span(lens, i, j) > window {
      if i < j - 1 {
        GrownAt(lens, window, i, j, j - 1);
      }
      forall k | i <= k < j - 1 ensures lens[k] == 0 {
        OffsetMonotone(lens, i, k);
        OffsetMonotone(lens, k + 1, j - 1);
      }
      assert LoneChunk(lens, i, j - 1, j);
    }
  }

  /** Only the last range can be empty, so planned offsets are strictly increasing. */
  lemma OffsetsAscend(ranges: seq<Range>, lens: seq<nat>, window: nat, j: nat, k: nat)
    requires Tiles(ranges, lens) && Packed(ranges, lens, window) && j < k < |ranges|
    ensures ranges[j].length > 0 && ranges[j].offset + ranges[j].length <= ranges[k].offset
  {
    EndsAscend(ranges, lens, j, k);
    assert ranges[k].chunkStart == StartOf(ranges, k);
    OffsetMonotone(lens, ranges[j].chunkEnd, ranges[k].chunkStart);
  }

  function Lengths(ranges: seq<Range>): (l: seq<nat>)
    ensures |l| == |ranges|
  {
    seq(|ranges|, k requires 0 <= k < |ranges| => ranges[k].length)
  }

  /** The ranges' lengths add up to the bytes of the chunks they cover: nothing is skipped or covered twice. */
  lemma {:induction false} TilesSum(ranges: seq<Range>, lens: seq<nat>, k: nat)
    requires Consecutive(ranges, lens) && k <= |ranges|
    ensures StartOf(ranges, k) <= |lens|
    ensures Offset(Lengths(ranges), k) == Offset(lens, StartOf(ranges, k))
    ensures k < |ranges| ==> ranges[k].offset == Offset(Lengths(ranges), k)
  {
    if k > 0 {
      TilesSum(ranges, lens, k - 1);
    }
    if k < |ranges| {
      assert ranges[k].chunkStart == StartOf(ranges, k);
    }
  }

  /** There is exactly one greedy plan: the specification of `PlanRanges` pins down its result. */
  lemma PlanIsUnique(a: seq<Range>, b: seq<Range>, lens: seq<nat>, window: nat)
    requires Tiles(a, lens) && Packed(a, lens, window) && Tiles(b, lens) && Packed(b, lens, window)
    ensures a == b
  {
    if |a| <= |b| { PlanPrefix(a, b, lens, window, |a|); } else { PlanPrefix(b, a, lens, window, |b|); }
  }

  lemma {:induction false} PlanPrefix(a: seq<Range>, b: seq<Range>, lens: seq<nat>, window: nat, k: nat)
    requires Tiles(a, lens) && Packed(a, lens, window) && Tiles(b, lens) && Packed(b, lens, window)
    requires k <= |a| <= |b|
    ensures forall x :: 0 <= x < k ==> a[x] == b[x]
    ensures k == |a| ==> |a| == |b|
  {
    if k > 0 {
      PlanPrefix(a, b, lens, window, k - 1);
      assert a[k - 1].chunkStart == StartOf(a, k - 1) == StartOf(b, k - 1) == b[k - 1].chunkStart;
      NotLonger(lens, window, a[k - 1].chunkStart, a[k - 1].chunkEnd, b[k - 1].chunkEnd);
      NotLonger(lens, window, a[k - 1].chunkStart, b[k - 1].chunkEnd, a[k - 1].chunkEnd);
    }
    if k == |a| < |b| {
      StartAt(b, lens, k);
    }
  }

  lemma NotLonger(lens: seq<nat>, window: nat, i: nat, j: nat, j': nat)
    requires Grown(lens, window, i, j') && i < j && (j < |lens| ==> Stopped(lens, window, i, j))
    ensures j' <= j || j >= |lens|
  {
    if j < j' {
      GrownAt(lens, window, i, j', j);
    }
  }

  // ---- fewest ranges ------------------------------------------------------------------------------

  function Start(cuts: seq<nat>, k: nat): nat
    requires k <= |cuts|
  {
    if k == 0 then 0 else cuts[k - 1]
  }

  /** Any division of the chunks into consecutive ranges that obey the packing rule, given by its end points. */
  ghost predicate Division(cuts: seq<nat>, lens: seq<nat>, window: nat) {
    && (forall k {:trigger Start(cuts, k)} :: 0 <= k < |cuts| ==> Fits(lens, window, Start(cuts, k), cuts[k]))
    && Start(cuts, |cuts|) == |lens|
  }

  ghost predicate Fewest(ranges: seq<Range>, lens: seq<nat>, window: nat) {
    forall cuts: seq<nat> :: Division(cuts, lens, window) ==> |ranges| <= |cuts|
  }

  /** After `k` ranges the greedy plan has covered at least as many bytes as any other division. */
  lemma {:induction false} StaysAhead(ranges: seq<Range>, cuts: seq<nat>, lens: seq<nat>, window: nat, k: nat)
    requires Tiles(ranges, lens) && Packed(ranges, lens, window) && Division(cuts, lens, window)
    requires k <= |ranges| && k <= |cuts|
    ensures Start(cuts, k) <= |lens| && StartOf(ranges, k) <= |lens|
    ensures Offset(lens, Start(cuts, k)) <= Offset(lens, StartOf(ranges, k))
  {
    if k > 0 {
      StaysAhead(ranges, cuts, lens, window, k - 1);
      assert ranges[k - 1].chunkStart == StartOf(ranges, k - 1);
      var a := Start(cuts, k - 1);
      if ranges[k - 1].chunkEnd == |lens| {
        OffsetMonotone(lens, cuts[k - 1], |lens|);
      } else {
        StepAhead(lens, window, ranges[k - 1].chunkStart, ranges[k - 1].chunkEnd, a, cuts[k - 1]);
      }
    }
  }

  /** One greedy range `[g, g')` ends no earlier, in bytes, than a range `[a, a')` that starts no later. */
  lemma StepAhead(lens: seq<nat>, window: nat, g: nat, g': nat, a: nat, a': nat)
    requires Stopped(lens, window, g, g') && Fits(lens, window, a, a') && Offset(lens, a) <= Offset(lens, g)
    ensures Offset(lens, a') <= Offset(lens, g')
  {
    if Offset(lens, a') > Offset(lens, g') {
      var k, k' := TakesTwo(lens, window, g, g', a, a');
      TwoNonZero(lens, window, a, a', k, k');
    }
  }

  /** A range that starts no later and ends later holds a chunk of the greedy one and, overflowing, one after it. */
  lemma TakesTwo(lens: seq<nat>, window: nat, g: nat, g': nat, a: nat, a': nat) returns (k: nat, k': nat)
    requires Stopped(lens, window, g, g') && a <= |lens| && a' <= |lens|
    requires Offset(lens, a) <= Offset(lens, g) && Offset(lens, a') > Offset(lens, g')
    ensures a <= k < k' < a' && lens[k] > 0 && lens[k'] > 0 && Offset(lens, a') > Offset(lens, a) + window
  {
    EndsLater(lens, g', a');
    StoppedBytes(lens, window, g, g');
    OffsetMonotone(lens, g' + 1, a');
    k := NonZeroWithin(lens, g, g', a);
    k' := NonZeroWithin(lens, g', a', a);
  }

  lemma EndsLater(lens: seq<nat>, j: nat, j': nat)
    requires j <= |lens| && j' <= |lens| && Offset(lens, j) < Offset(lens, j')
    ensures j < j'
  {
    if j' <= j {
      OffsetMonotone(lens, j', j);
    }
  }

  lemma StoppedBytes(lens: seq<nat>, window: nat, i: nat, j: nat)
    requires Stopped(lens, window, i, j)
    ensures Offset(lens, i) < Offset(lens, j) && Offset(lens, j + 1) > Offset(lens, i) + window
  {
  }

  lemma TwoNonZero(lens: seq<nat>, window: nat, i: nat, j: nat, k: nat, k': nat)
    requires Fits(lens, window, i, j) && i <= k < k' < j && lens[k] > 0 && lens[k'] > 0
    ensures Offset(lens, j) <= Offset(lens, i) + window
  {
    assert forall m: nat :: !LoneChunk(lens, i, m, j);
  }

  /** If `[i, j)` carries bytes, one of its non-zero chunks lies at or after any `a` starting no later. */
  lemma {:induction false} NonZeroWithin(lens: seq<nat>, i: nat, j: nat, a: nat) returns (k: nat)
    requires i <= j <= |lens| && a <= |lens|
    requires Offset(lens, a) <= Offset(lens, i) < Offset(lens, j)
    ensures i <= k < j && a <= k && lens[k] > 0
    decreases j
  {
    k := j - 1;
    if lens[k] == 0 {
      k := NonZeroWithin(lens, i, k, a);
    } else if k < a {
      OffsetMonotone(lens, i, k);
      OffsetMonotone(lens, j, a);
    }
  }

  /** Empty chunks trailing a chunk larger than the window. */
  predicate TrailsOversize(lens: seq<nat>, window: nat) {
    exists m :: 0 <= m < |lens| && OversizeThenEmpty(lens, window, m)
  }

  predicate OversizeThenEmpty(lens: seq<nat>, window: nat, m: nat) {
    m < |lens| - 1 && lens[m] > window && forall k :: m < k < |lens| ==> lens[k] == 0
  }

  /** The greedy plan uses the fewest ranges unless empty chunks trail a chunk larger than the window. */
  lemma GreedyIsFewest(ranges: seq<Range>, lens: seq<nat>, window: nat)
    requires Tiles(ranges, lens) && Packed(ranges, lens, window) && window > 0
    ensures Fewest(ranges, lens, window) <==> !TrailsOversize(lens, window)
  {
    if TrailsOversize(lens, window) {
      var m: nat :| OversizeThenEmpty(lens, window, m);
      MergeLastTwo(ranges, lens, window, m);
    } else {
      forall cuts: seq<nat> | Division(cuts, lens, window) ensures |ranges| <= |cuts| {
        if |cuts| < |ranges| {
          AtMostOneMore(ranges, cuts, lens, window);
        }
      }
    }
  }

  /** The two-range plan of a two-byte chunk and an empty one under a window of one byte, where one range would do. */
  lemma GreedyNotFewest()
    ensures var (ranges, lens) := ([Range(0, 0, 2, 0, 1), Range(1, 2, 0, 1, 2)], [2, 0]);
            && Tiles(ranges, lens) && Packed(ranges, lens, 1) && Division([2], lens, 1)
            && TrailsOversize(lens, 1) && !Fewest(ranges, lens, 1)
  {
    var (ranges, lens) := ([Range(0, 0, 2, 0, 1), Range(1, 2, 0, 1, 2)], [2, 0]);
    hide Tiles, Packed, Division;
    TwoRangesPacked();
    OneRangeDivides();
    assert OversizeThenEmpty(lens, 1, 0);
  }

  lemma OneRangeDivides()
    ensures Division([2], [2, 0], 1)
  {
    hide Span;
    assert LoneChunk([2, 0], 0, 0, 2);
  }

  lemma TwoRangesPacked()
    ensures var (ranges, lens) := ([Range(0, 0, 2, 0, 1), Range(1, 2, 0, 1, 2)], [2, 0]);
            Tiles(ranges, lens) && Packed(ranges, lens, 1)
  {
    var lens := [2, 0];
    OffsetStep(lens, 0);
    OffsetStep(lens, 1);
    assert Offset(lens, 0) == 0 && Offset(lens, 1) == 2 && Offset(lens, 2) == 2;
    hide Offset;
  }

  /** A shorter division leaves the greedy plan one empty last range, stranded behind an oversize chunk. */
  lemma AtMostOneMore(ranges: seq<Range>, cuts: seq<nat>, lens: seq<nat>, window: nat)
    requires Tiles(ranges, lens) && Packed(ranges, lens, window) && Division(cuts, lens, window)
    requires |cuts| < |ranges|
    ensures |ranges| == |cuts| + 1 && TrailsOversize(lens, window)
  {
    var k := |cuts|;
    StaysAhead(ranges, cuts, lens, window, k);
    var last := ranges[k];
    assert last.chunkStart == StartOf(ranges, k);
    OffsetMonotone(lens, last.chunkStart, last.chunkEnd);
    OffsetMonotone(lens, last.chunkEnd, |lens|);
    assert last.length == 0 && last.chunkEnd == |lens|;
    if k + 1 < |ranges| {
      StartAt(ranges, lens, k + 1);
    }
    assert Start(cuts, |cuts|) == |lens|;
    Stranded(lens, window, ranges[k - 1].chunkStart, ranges[k - 1].chunkEnd);
  }

  lemma Stranded(lens: seq<nat>, window: nat, i: nat, j: nat)
    requires Grown(lens, window, i, j) && Stopped(lens, window, i, j) && Offset(lens, j) == Offset(lens, |lens|)
    ensures TrailsOversize(lens, window)
  {
    OffsetMonotone(lens, j + 1, |lens|);
    GrownFits(lens, window, i, j);
    var m: nat :| LoneChunk(lens, i, m, j);
    LoneSpan(lens, i, m, j);
    forall x | m < x < |lens| ensures lens[x] == 0 {
      if x >= j {
        OffsetMonotone(lens, j, x);
        OffsetMonotone(lens, x + 1, |lens|);
      }
    }
    assert OversizeThenEmpty(lens, window, m);
  }

  lemma {:induction false} LoneSpan(lens: seq<nat>, i: nat, m: nat, j: nat)
    requires LoneChunk(lens, i, m, j)
    ensures Span(lens, i, j) == lens[m]
    decreases j
  {
    if j - 1 == m {
      OffsetMonotone(lens, i, m);
      if Offset(lens, i) < Offset(lens, m) {
        var k := NonZeroWithin(lens, i, m, i);
      }
    } else {
      LoneSpan(lens, i, m, j - 1);
    }
  }

  /** With empty chunks trailing an oversize chunk `m`, folding the empty last range into its neighbour saves one. */
  lemma MergeLastTwo(ranges: seq<Range>, lens: seq<nat>, window: nat, m: nat)
    requires Tiles(ranges, lens) && Packed(ranges, lens, window) && OversizeThenEmpty(lens, window, m) && window > 0
    ensures !Fewest(ranges, lens, window)
  {
    var n := |ranges|;
    LastTwo(ranges, lens, window, m);
    var cuts := seq(n - 1, x requires 0 <= x < n - 1 => if x == n - 2 then |lens| else ranges[x].chunkEnd);
    forall x | 0 <= x < |cuts| ensures Fits(lens, window, Start(cuts, x), cuts[x]) {
      StartAt(ranges, lens, x);
      GrownFits(lens, window, ranges[x].chunkStart, ranges[x].chunkEnd);
      hide Fits, Grown, Stopped;
      if x == n - 2 {
        AbsorbEmpty(lens, window, m, ranges[x].chunkStart);
      }
    }
    assert Division(cuts, lens, window);
  }

  /** Chunk `m` ends the last range but one. */
  lemma LastTwo(ranges: seq<Range>, lens: seq<nat>, window: nat, m: nat)
    requires Tiles(ranges, lens) && Packed(ranges, lens, window) && OversizeThenEmpty(lens, window, m) && window > 0
    ensures |ranges| >= 2 && ranges[|ranges| - 2].chunkEnd == m + 1
    ensures ranges[|ranges| - 2].chunkStart <= m && Span(lens, ranges[|ranges| - 2].chunkStart, m + 1) > window
  {
    var k := Holder(ranges, lens, m);
    EndsAtOversize(lens, window, m, ranges[k].chunkStart, ranges[k].chunkEnd);
    StartAt(ranges, lens, k + 1);
    EmptyTail(lens, m, ranges[k + 1].chunkEnd);
    EndsLast(ranges, lens, k + 1);
  }

  lemma EndsLast(ranges: seq<Range>, lens: seq<nat>, k: nat)
    requires Tiles(ranges, lens) && k < |ranges| && ranges[k].chunkEnd == |lens|
    ensures |ranges| == k + 1
  {
    if k + 1 < |ranges| {
      StartAt(ranges, lens, k + 1);
    }
  }

  lemma AbsorbEmpty(lens: seq<nat>, window: nat, m: nat, i: nat)
    requires OversizeThenEmpty(lens, window, m) && Fits(lens, window, i, m + 1) && Span(lens, i, m + 1) > window
    ensures Fits(lens, window, i, |lens|)
  {
    var m': nat :| LoneChunk(lens, i, m', m + 1);
    assert LoneChunk(lens, i, m, |lens|);
  }

  lemma EndsAtOversize(lens: seq<nat>, window: nat, m: nat, i: nat, j: nat)
    requires OversizeThenEmpty(lens, window, m) && window > 0 && Grown(lens, window, i, j) && i <= m < j
    ensures j == m + 1 && Span(lens, i, j) > window
  {
    OffsetMonotone(lens, i, m);
    if m + 1 < j {
      GrownAt(lens, window, i, j, m + 1);
    }
  }

  /** No range that starts behind chunk `m` is ever closed by a further chunk. */
  lemma EmptyTail(lens: seq<nat>, m: nat, j: nat)
    requires m + 1 <= j <= |lens| && forall k :: m < k < |lens| ==> lens[k] == 0
    ensures Span(lens, m + 1, j) == 0
  {
    if Span(lens, m + 1, j) > 0 {
      var k := NonZeroWithin(lens, m + 1, j, m + 1);
    }
  }

  /** The range that holds chunk `m`. */
  lemma {:induction false} Holder(ranges: seq<Range>, lens: seq<nat>, m: nat) returns (k: nat)
    requires Tiles(ranges, lens) && m < |lens|
    ensures k < |ranges| && ranges[k].chunkStart <= m < ranges[k].chunkEnd
  {
    k := |ranges| - 1;
    while m < ranges[k].chunkStart
      invariant 0 <= k < |ranges| && m < ranges[k].chunkEnd
    {
      assert ranges[k].chunkStart == StartOf(ranges, k);
      k := k - 1;
    }
  }
}
