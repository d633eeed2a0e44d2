/** The `chunk_lens` array of a stream too large to state it on one frame, reassembled from pages. */
module PagedPrologue {
  import opened Basics
  import opened Plan
  import opened Frames

  type Slots = seq<Option<nat>>

  /** The placement rules: page-aligned, inside the array, exactly one page long, over empty slots only. */
  predicate Accepts(slots: Slots, offset: nat, page: seq<nat>) {
    && offset % PAGE == 0 && offset < |slots| && |page| == Min(PAGE, |slots| - offset)
    && forall i :: offset <= i < offset + |page| ==> slots[i].None?
  }

  function Placed(slots: Slots, offset: nat, page: seq<nat>): (r: Slots)
    requires offset + |page| <= |slots|
    ensures |r| == |slots|
  {
    seq(|slots|, i requires 0 <= i < |slots| =>
      if offset <= i < offset + |page| then Some(page[i - offset]) else slots[i])
  }

  predicate Full(slots: Slots) { forall i :: 0 <= i < |slots| ==> slots[i].Some? }

  class ChunkLensAssembler {
    var slots: Slots

    constructor (count: nat)
      requires count <= MAX_RESOURCE_CHUNK_COUNT
      ensures |slots| == count && forall i :: 0 <= i < count ==> slots[i].None?
    {
      slots := seq(count, _ => None);
    }

    method AcceptPage(offset: nat, page: seq<nat>) returns (ok: bool)
      modifies this
      ensures ok <==> Accepts(old(slots), offset, page)
      ensures slots == if ok then Placed(old(slots), offset, page) else old(slots)
    {
      ok := Accepts(slots, offset, page);
      if ok {
        slots := Placed(slots, offset, page);
      }
    }

    predicate IsComplete()
      reads this
    {
      Full(slots)
    }

    method IntoChunkLens() returns (r: Option<seq<nat>>)
      ensures r.Some? <==> Full(slots)
      ensures r.Some? ==> |r.value| == |slots| && forall i :: 0 <= i < |slots| ==> slots[i] == Some(r.value[i])
    {
      var lens := [];
      for i := 0 to |slots|
        invariant |lens| == i && forall j :: 0 <= j < i ==> slots[j] == Some(lens[j])
      {
        if slots[i].None? {
          return None;
        }
        lens := lens + [slots[i].value];
      }
      return Some(lens);
    }
  }

  /** No page skipped ahead, and nothing but pages moved the frontier. */
  ghost predicate InStep(frames: seq<RangeFrame>)
    requires frames != []
  {
    PagesInOrder(frames) && Frontier(frames) == |Pages(frames)|
  }

  ghost predicate Gap(slots: Slots, frontier: nat) { exists i :: 0 <= i < |slots| && i < frontier && slots[i].None? }

  /** The slots hold `pages`, none beyond `frontier`; once a page skipped ahead, a slot behind it stays empty. */
  ghost predicate Holds(slots: Slots, pages: seq<nat>, frontier: nat, inStep: bool) {
    && |pages| <= Min(frontier, |slots|) && (inStep ==> frontier == |pages|)
    && (forall i :: frontier <= i < |slots| ==> slots[i].None?)
    && (inStep ==> forall i :: 0 <= i < |pages| ==> slots[i] == Some(pages[i]))
    && (!inStep ==> Gap(slots, frontier))
  }

  lemma PlacedHolds(slots: Slots, pages: seq<nat>, frontier: nat, inStep: bool, start: nat, page: seq<nat>)
    requires Holds(slots, pages, frontier, inStep) && Accepts(slots, start, page) && frontier <= start
    ensures Holds(Placed(slots, start, page), pages + page, start + |page|, inStep && start == |pages|)
  {
    var now := Placed(slots, start, page);
    if !inStep {
      var i :| 0 <= i < |slots| && i < frontier && slots[i].None?;
      assert now[i].None?;
    } else if start > |pages| {
      assert now[|pages|].None?;
    }
  }

  /** Every page placed was a whole one, but for a shorter one that ends the array. */
  ghost predicate Paced(count: nat, placed: nat, entries: nat, frontier: nat) {
    entries == placed * PAGE || (frontier >= count && (placed - 1) * PAGE < entries)
  }

  ghost predicate HoldsAll(slots: Slots, pages: seq<nat>, frontier: nat, inStep: bool, placed: nat) {
    Holds(slots, pages, frontier, inStep) && Paced(|slots|, placed, |pages|, frontier)
  }

  ghost predicate Assembled(slots: Slots, frames: seq<RangeFrame>)
    requires frames != []
  {
    HoldsAll(slots, Pages(frames), Frontier(frames), InStep(frames), PageCount(frames))
  }

  /** So many pages make up an array of `count` entries. */
  function PagesFor(count: nat): nat { (count + PAGE - 1) / PAGE }

  /** No more pages were placed than the array has. */
  lemma PagesFit(slots: Slots, frames: seq<RangeFrame>)
    requires frames != [] && Assembled(slots, frames)
    ensures PageCount(frames) <= PagesFor(|slots|)
  {
  }

  /** All slots are filled exactly when the pages came one after another and make up the whole array. */
  lemma Completion(slots: Slots, frames: seq<RangeFrame>)
    requires frames != [] && Coherent(frames) && Assembled(slots, frames) && 0 < |slots| <= U64_MAX
    ensures Full(slots) <==> PagesInOrder(frames) && |Pages(frames)| == |slots|
    ensures Full(slots) ==> forall i :: 0 <= i < |slots| ==> slots[i] == Some(Pages(frames)[i])
  {
    if PagesInOrder(frames) && |Pages(frames)| == |slots| && !InStep(frames) {
      OutOfStep(frames);
    }
    if InStep(frames) && |Pages(frames)| < |slots| {
      assert slots[|Pages(frames)|].None?;
    }
  }

  /** Consecutive pages fall out of step only if the first frame stamps an offset without carrying a page. */
  lemma {:induction false} OutOfStep(frames: seq<RangeFrame>)
    requires frames != [] && Coherent(frames) && PagesInOrder(frames) && !InStep(frames) && |Pages(frames)| <= U64_MAX
    ensures Pages(frames) == []
  {
    var (init, last) := (frames[..|frames| - 1], frames[|frames| - 1]);
    assert frames == init + [last];
    PagesInOrderStep(init, last);
    if |frames| > 1 {
      assert Coherent(init) by {
        assert forall j, k :: 0 <= j < k < |init| ==> Follows(frames[j], frames[k]);
        assert forall k :: 0 < k < |init| ==> Restates(frames[0], frames[k]);
      }
      OneMoreFrame(init, last);
      if !InStep(init) {
        OutOfStep(init);
      }
    }
  }

  lemma PagesInOrderStep(frames: seq<RangeFrame>, f: RangeFrame)
    ensures Pages(frames + [f]) == Pages(frames) + f.Page()
    ensures PageCount(frames + [f]) == PageCount(frames) + if f.chunkLens.Some? then 1 else 0
    ensures PagesInOrder(frames + [f]) <==>
              PagesInOrder(frames) && (f.chunkLens.Some? ==> f.PageStart() == |Pages(frames)|)
  {
    var all := frames + [f];
    assert all[..|frames|] == frames;
    assert forall k :: 0 <= k < |frames| ==> all[..k] == frames[..k] && all[k] == frames[k];
  }

  /** The first frame, whose page, if it carries one, was accepted. */
  lemma FirstPage(slots: Slots, f: RangeFrame)
    requires forall i :: 0 <= i < |slots| ==> slots[i].None?
    requires 0 < |slots| <= U64_MAX
    requires f.chunkLens.Some? ==> Accepts(slots, f.PageStart(), f.Page())
    ensures Assembled(if f.chunkLens.Some? then Placed(slots, f.PageStart(), f.Page()) else slots, [f])
    ensures f.chunkLens.Some? ==> |Pages([f])| > 0
  {
    assert [f] == [] + [f];
    PagesInOrderStep([], f);
    var now := if f.chunkLens.Some? then Placed(slots, f.PageStart(), f.Page()) else slots;
    if f.PageStart() > 0 {
      assert now[0].None?;
    }
  }

  /** A later frame, whose page, if it carries one, was accepted. */
  lemma NextPage(slots: Slots, frames: seq<RangeFrame>, f: RangeFrame)
    requires frames != [] && Assembled(slots, frames) && |slots| <= U64_MAX
    requires f.chunkLens.Some? ==> Frontier(frames) <= f.PageStart()
    requires f.chunkLens.Some? ==> Accepts(slots, f.PageStart(), f.Page())
    ensures Assembled(if f.chunkLens.Some? then Placed(slots, f.PageStart(), f.Page()) else slots, frames + [f])
    ensures |Pages(frames + [f])| >= |Pages(frames)| + if f.chunkLens.Some? then 1 else 0
  {
    hide PagesInOrder, Pages, PageCount, Frontier, HoldsAll, Accepts, Placed;
    PagesInOrderStep(frames, f);
    FrontierStep(frames, f);
    var (pages, frontier) := (Pages(frames), Frontier(frames));
    if f.chunkLens.Some? {
      NextHeld(slots, pages, frontier, InStep(frames), PageCount(frames), f.PageStart(), f.Page());
    } else {
      assert pages + [] == pages;
    }
    assert InStep(frames + [f]) <==> InStep(frames) && (f.chunkLens.Some? ==> f.PageStart() == |pages|);
  }

  lemma NextHeld(slots: Slots, pages: seq<nat>, frontier: nat, inStep: bool, placed: nat, start: nat, page: seq<nat>)
    requires HoldsAll(slots, pages, frontier, inStep, placed) && Accepts(slots, start, page) && frontier <= start
    ensures |pages| <= frontier && 0 < |page| && start + |page| <= |slots|
    ensures HoldsAll(Placed(slots, start, page), pages + page, start + |page|, inStep && start == |pages|, placed + 1)
  {
    PlacedHolds(slots, pages, frontier, inStep, start, page);
    hide Holds, Placed;
  }

  lemma FrontierStep(frames: seq<RangeFrame>, f: RangeFrame)
    requires frames != []
    ensures Frontier(frames + [f]) == if f.chunkLens.Some? then f.PageEnd() else Frontier(frames)
  {
    assert (frames + [f])[..|frames|] == frames;
  }
}
