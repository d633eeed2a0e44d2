/** Answers the reader's refinement theorem speaks of: any content, split any way, with and without a layout. */
module ReaderWitness {
  import opened Basics
  import opened Plan
  import opened Frames
  import opened PagedPrologue
  import opened Reader

  /** The whole window, and the whole array or none of it, on one frame is a faithful answer, whatever they are. */
  lemma OneFrameConforms(content: Bytes, count: Option<nat>, layout: Option<seq<nat>>, maxLen: nat)
    requires count.Some? ==> count.value <= if layout.Some? then |layout.value| else 0
    ensures var h := Answer([RangeFrame(0, content, true, None, None, count, None, layout, None, None)], content);
            h.Conforms(maxLen) && Layout(h.frames) == layout
  {
    var h := Answer([RangeFrame(0, content, true, None, None, count, None, layout, None, None)], content);
    assert h.frames == [] + h.frames && h.frames[..0] == [];
    assert Data([]) == [] && Data(h.frames) == [] + content;
    assert h.Faithful(0, maxLen);
  }

  function Flat(pieces: seq<Bytes>): Bytes {
    if pieces == [] then [] else Flat(pieces[..|pieces| - 1]) + pieces[|pieces| - 1]
  }

  /** The entries of the `k`th page: none past the array's end, though the first frame always carries what there is. */
  function PageAt(layout: Option<seq<nat>>, k: nat): Option<seq<nat>> {
    if layout.Some? && (k == 0 || k * PAGE < |layout.value|)
    then Some(layout.value[k * PAGE..Min((k + 1) * PAGE, |layout.value|)])
    else None
  }

  function FrameAt(pieces: seq<Bytes>, layout: Option<seq<nat>>, k: nat): RangeFrame
    requires k < |pieces|
  {
    RangeFrame(if pieces[k] == [] then 0 else |Flat(pieces[..k])|, pieces[k], k == |pieces| - 1, None, None,
               if k == 0 && layout.Some? then Some(|layout.value|) else None, None, PageAt(layout, k),
               if PageAt(layout, k).Some? then Some(k * PAGE) else None, None)
  }

  /** The answer whose `k`th frame carries the `k`th piece of the content and the `k`th page of the layout. */
  function Split(pieces: seq<Bytes>, layout: Option<seq<nat>>): Answer {
    Answer(seq(|pieces|, k requires 0 <= k < |pieces| => FrameAt(pieces, layout, k)), Flat(pieces))
  }

  /** Enough frames for the pages, and each but the last brings bytes or one of several pages; one that brings a page
      after the window of `maxLen` is full brings no bytes. */
  predicate Splits(pieces: seq<Bytes>, layout: Option<seq<nat>>, maxLen: nat) {
    && pieces != []
    && (layout.Some? ==> |layout.value| <= MAX_RESOURCE_CHUNK_COUNT && PagesFor(|layout.value|) <= |pieces|)
    && (forall k :: 0 <= k < |pieces| - 1 ==> pieces[k] != [] || (PageAt(layout, k).Some? && |layout.value| > PAGE))
    && (forall k :: 0 <= k < |pieces| && pieces[k] != [] && PageAt(layout, k).Some? && maxLen > 0 ==>
                      |Flat(pieces[..k])| < maxLen)
  }

  /** The entries of the first `k` pages. */
  function EntriesUpTo(layout: Option<seq<nat>>, k: nat): seq<nat> {
    if layout.Some? then layout.value[..Min(k * PAGE, |layout.value|)] else []
  }

  lemma NextEntries(layout: Option<seq<nat>>, k: nat)
    ensures EntriesUpTo(layout, k + 1) ==
            EntriesUpTo(layout, k) + if PageAt(layout, k).Some? then PageAt(layout, k).value else []
    ensures PagesFor(if layout.Some? then |layout.value| else 0) <= k ==>
              EntriesUpTo(layout, k) == if layout.Some? then layout.value else []
    ensures PageAt(layout, k).Some? ==> |EntriesUpTo(layout, k)| == k * PAGE
  {
    if layout.Some? {
      assert layout.value[..|layout.value|] == layout.value;
    }
  }

  lemma FirstPageIs(layout: Option<seq<nat>>)
    ensures layout.Some? <==> PageAt(layout, 0).Some?
    ensures layout.Some? && |PageAt(layout, 0).value| >= |layout.value| ==> PageAt(layout, 0) == layout
  {
    if layout.Some? {
      assert layout.value[0..|layout.value|] == layout.value;
    }
  }

  lemma OneMoreFrameAt(pieces: seq<Bytes>, layout: Option<seq<nat>>, k: nat)
    requires k < |pieces|
    ensures var all := Split(pieces, layout).frames;
            && |all| == |pieces| && all[..k + 1] == all[..k] + [all[k]] && all[k] == FrameAt(pieces, layout, k)
            && all[k].bytes == pieces[k]
            && all[k].Page() == if PageAt(layout, k).Some? then PageAt(layout, k).value else []
    ensures Flat(pieces[..k + 1]) == Flat(pieces[..k]) + pieces[k]
  {
    assert pieces[..k + 1][..k] == pieces[..k];
  }

  lemma DataStep(frames: seq<RangeFrame>, f: RangeFrame)
    ensures Data(frames + [f]) == Data(frames) + f.bytes
  {
    assert (frames + [f])[..|frames|] == frames;
  }

  lemma NothingYet(pieces: seq<Bytes>, layout: Option<seq<nat>>)
    ensures Data(Split(pieces, layout).frames[..0]) == [] == Flat(pieces[..0])
    ensures Pages(Split(pieces, layout).frames[..0]) == [] == EntriesUpTo(layout, 0)
  {
  }

  /** The first `k` frames carry the first `k` pieces and pages. */
  lemma {:induction false} Carries(pieces: seq<Bytes>, layout: Option<seq<nat>>, k: nat)
    requires k <= |pieces| == |Split(pieces, layout).frames|
    ensures var some := Split(pieces, layout).frames[..k];
            Data(some) == Flat(pieces[..k]) && Pages(some) == EntriesUpTo(layout, k)
  {
    hide *;
    if k == 0 {
      NothingYet(pieces, layout);
    } else {
      var all := Split(pieces, layout).frames;
      Carries(pieces, layout, k - 1);
      OneMoreFrameAt(pieces, layout, k - 1);
      PagesInOrderStep(all[..k - 1], all[k - 1]);
      DataStep(all[..k - 1], all[k - 1]);
      NextEntries(layout, k - 1);
    }
  }

  lemma SplitCoherent(pieces: seq<Bytes>, layout: Option<seq<nat>>, k: nat)
    requires k <= |pieces| && (layout.Some? ==> |layout.value| <= MAX_RESOURCE_CHUNK_COUNT)
    ensures Coherent(Split(pieces, layout).frames[..k])
  {
    var all := Split(pieces, layout).frames;
    forall i, j | 0 <= i < j < |all| ensures Follows(all[i], all[j]) {
    }
    forall j | 0 < j < |all| ensures Restates(all[0], all[j]) {
      assert Follows(all[0], all[j]);
    }
  }

  lemma SplitInShape(pieces: seq<Bytes>, layout: Option<seq<nat>>, k: nat)
    requires k < |pieces| && (layout.Some? ==> |layout.value| <= MAX_RESOURCE_CHUNK_COUNT)
    ensures var frames := Split(pieces, layout).frames; InShape(frames[..k], frames[k])
  {
    hide Coherent, Flat, Split;
    OneMoreFrameAt(pieces, layout, 0);
    OneMoreFrameAt(pieces, layout, k);
    SplitCoherent(pieces, layout, k + 1);
  }

  lemma SplitFaithful(pieces: seq<Bytes>, layout: Option<seq<nat>>, k: nat, maxLen: nat)
    requires Splits(pieces, layout, maxLen) && k < |pieces|
    ensures Split(pieces, layout).Faithful(k, maxLen)
  {
    hide Data, Pages, Flat, InShape, Split, PagesFor;
    OneMoreFrameAt(pieces, layout, 0);
    OneMoreFrameAt(pieces, layout, k);
    SplitInShape(pieces, layout, k);
    Carries(pieces, layout, k);
    assert Split(pieces, layout).Awaits(k) ==> PageAt(layout, k).Some?;
  }

  /** The pages come one after another and make up the layout. */
  lemma SplitWhole(pieces: seq<Bytes>, layout: Option<seq<nat>>)
    requires pieces != [] && (layout.Some? ==> PagesFor(|layout.value|) <= |pieces|)
    ensures var frames := Split(pieces, layout).frames; LayoutWhole(frames) && Layout(frames) == layout
  {
    var frames := Split(pieces, layout).frames;
    hide Pages, Data, Flat, EntriesUpTo, PageAt, PagesFor;
    forall k | 0 <= k < |frames| && frames[k].chunkLens.Some? ensures frames[k].PageStart() == |Pages(frames[..k])| {
      Carries(pieces, layout, k);
      NextEntries(layout, k);
    }
    Carries(pieces, layout, |frames|);
    NextEntries(layout, |frames|);
    assert frames[..|frames|] == frames;
    FirstPageIs(layout);
  }

  /** However the content is split and however many pages the layout takes, the answer is a faithful one. */
  lemma SplitConforms(pieces: seq<Bytes>, layout: Option<seq<nat>>, maxLen: nat)
    requires Splits(pieces, layout, maxLen)
    ensures var h := Split(pieces, layout);
            h.Conforms(maxLen) && h.content == Flat(pieces) && Layout(h.frames) == layout
  {
    forall k | 0 <= k < |pieces| ensures Split(pieces, layout).Faithful(k, maxLen) {
      SplitFaithful(pieces, layout, k, maxLen);
    }
    SplitWhole(pieces, layout);
    Carries(pieces, layout, |pieces|);
    var frames := Split(pieces, layout).frames;
    assert frames[..|pieces|] == frames && pieces[..|pieces|] == pieces;
    assert Data(frames) == Flat(pieces);
    hide Answer.Faithful, LayoutWhole, Layout, Flat, Data, FrameAt;
  }

  /** An answer without any layout is whole exactly if its first frame does not declare a positive count. */
  lemma LayoutFreeWhole(frames: seq<RangeFrame>)
    requires frames != [] && forall k :: 0 <= k < |frames| ==> frames[k].chunkLens.None?
    ensures LayoutWhole(frames) <==> frames[0].chunkCount.None? || frames[0].chunkCount.value == 0
    ensures LayoutWhole(frames) ==> Layout(frames) == None
  {
    NoPages(frames);
  }

  lemma {:induction false} NoPages(frames: seq<RangeFrame>)
    requires forall k :: 0 <= k < |frames| ==> frames[k].chunkLens.None?
    ensures Pages(frames) == []
  {
    if frames != [] {
      NoPages(frames[..|frames| - 1]);
    }
  }
}
