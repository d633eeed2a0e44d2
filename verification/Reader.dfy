/** `assemble_range_stream` of `src/source.rs`: reassembles a hostile frame stream into one window and one shape. */
module Reader {
  import opened Basics
  import opened Plan
  import opened Verify
  import opened Frames
  import opened PagedPrologue

  /** What decoding the next frame yields; a stream need not end. */
  datatype Wire = Framed(frame: RangeFrame) | Broken | EndOfStream

  datatype LaterFrame = Continuation | NewProloguePage(offset: nat, entries: nat)

  class StreamIdentity {
    var root: Option<string>
    var totalLength: Option<nat>
    var chunkCount: Option<nat>
    var highestChunkIndex: Option<nat>
    var prologueFrontier: nat

    function Value(): Identity
      reads this
    {
      Identity(root, totalLength, chunkCount, highestChunkIndex, prologueFrontier)
    }

    constructor FromFirstFrame(frame: RangeFrame)
      ensures Value() == IdentityOf([frame])
    {
      root, totalLength, chunkCount, highestChunkIndex :=
        frame.root, frame.totalLength, frame.chunkCount, frame.chunkIndex;
      prologueFrontier := frame.PageEnd();
      new;
      assert LastIndex([frame]) == frame.chunkIndex by {
        assert LastIndex([frame][..0]) == None;
      }
    }

    /** Accepts a later frame exactly if it is coherent with all the frames before it. */
    method CheckLaterFrame(frame: RangeFrame, ghost frames: seq<RangeFrame>) returns (r: Option<LaterFrame>)
      requires frames != [] && Coherent(frames) && Value() == IdentityOf(frames)
      modifies this
      ensures r.Some? <==> Coherent(frames + [frame])
      ensures r.Some? ==> Value() == IdentityOf(frames + [frame])
      ensures r.Some? ==>
                r.value == if frame.chunkLens.Some? then NewProloguePage(frame.PageStart(), |frame.Page()|)
                           else Continuation
    {
      OneMoreFrame(frames, frame);
      assert (frames + [frame])[..|frames|] == frames;
      if !Unrevised(root, frame.root) || !Unrevised(totalLength, frame.totalLength)
         || !Unrevised(chunkCount, frame.chunkCount) || frame.inclusionProof.Some?
      {
        return None;
      }
      if frame.chunkIndex.Some? {
        if highestChunkIndex.Some? && frame.chunkIndex.value < highestChunkIndex.value {
          return None;
        }
        highestChunkIndex := frame.chunkIndex;
      }
      if frame.chunkLens.None? {
        return Some(Continuation);
      }
      if frame.PageStart() < prologueFrontier {
        return None;
      }
      prologueFrontier := frame.PageEnd();
      return Some(NewProloguePage(frame.PageStart(), |frame.Page()|));
    }
  }

  /** `frame` carries the next page of the array the stream's first frame declared, or no page. */
  ghost predicate InShape(frames: seq<RangeFrame>, frame: RangeFrame) {
    var first := (frames + [frame])[0];
    && Coherent(frames + [frame])
    && (first.Paged() && frame.chunkLens.Some? ==>
          var (start, count) := (frame.PageStart(), first.chunkCount.value);
          start % PAGE == 0 && start < count && |frame.Page()| == Min(PAGE, count - start))
    && (first.Paged() ==> first.chunkCount.value <= MAX_RESOURCE_CHUNK_COUNT)
    && (!first.Paged() && frames != [] ==> frame.chunkLens.None?)
  }

  /** What identity and assembler hold, as values. */
  datatype View = View(identity: Option<Identity>, slots: Option<Slots>)

  /** The reader's two trackers, created as the first frame is read. */
  datatype Trackers = Trackers(identity: Option<StreamIdentity>, assembler: Option<ChunkLensAssembler>)
  {
    ghost function Parts(): set<object> {
      (if identity.Some? then {identity.value} else {}) + (if assembler.Some? then {assembler.value} else {})
    }

    ghost function Held(): View
      reads Parts()
    {
      View(if identity.Some? then Some(identity.value.Value()) else None,
           if assembler.Some? then Some(assembler.value.slots) else None)
    }
  }

  /** Identity and assembler hold what `frames` declared. */
  ghost predicate Tracks(v: View, frames: seq<RangeFrame>) {
    if |frames| == 0 then v == View(None, None)
    else
      && Coherent(frames) && v.identity == Some(IdentityOf(frames))
      && (v.slots.Some? <==> frames[0].Paged())
      && (v.slots.Some? ==>
            && |v.slots.value| == frames[0].chunkCount.value <= MAX_RESOURCE_CHUNK_COUNT
            && Assembled(v.slots.value, frames))
      && (v.slots.None? ==> forall k :: 0 < k < |frames| ==> frames[k].chunkLens.None?)
  }

  /** The first frame fixes the identity, and sizes the array if it carries only part of it. */
  method AdmitFirst(frame: RangeFrame)
    returns (r: Result<bool, DownloadError>, now: Trackers)
    ensures fresh(now.Parts())
    ensures r.Ok? ==> Tracks(now.Held(), [frame]) && r.value == (frame.chunkLens.Some? && now.assembler.Some?)
    ensures r.Ok? && r.value ==> |Pages([frame])| > 0
    ensures r.Err? ==> r.error.IsRecoverable()
    ensures r.Ok? <==> InShape([], frame)
  {
    var identity := new StreamIdentity.FromFirstFrame(frame);
    now := Trackers(Some(identity), None);
    assert [] + [frame] == [frame];
    if frame.Paged() {
      if frame.chunkCount.value > MAX_RESOURCE_CHUNK_COUNT {
        return Err(Transport), now;
      }
      var assembler := new ChunkLensAssembler(frame.chunkCount.value);
      ghost var empty := assembler.slots;
      now := Trackers(Some(identity), Some(assembler));
      if frame.chunkLens.Some? {
        var ok := assembler.AcceptPage(frame.PageStart(), frame.Page());
        if !ok {
          return Err(Transport), now;
        }
      }
      FirstPage(empty, frame);
      return Ok(frame.chunkLens.Some?), now;
    }
    return Ok(false), now;
  }

  /** A later frame must agree with the identity, and its page must fit the array. */
  method AdmitLater(t: Trackers, frame: RangeFrame, ghost frames: seq<RangeFrame>)
    returns (r: Result<bool, DownloadError>)
    requires t.identity.Some? && frames != [] && Tracks(t.Held(), frames)
    modifies t.Parts()
    ensures r.Ok? ==> Tracks(t.Held(), frames + [frame])
    ensures r.Ok? ==> r.value == (frame.chunkLens.Some? && t.assembler.Some?)
    ensures r.Ok? && r.value ==> |Pages(frames + [frame])| > |Pages(frames)|
    ensures r.Err? ==> r.error.IsRecoverable()
    ensures r.Ok? <==> InShape(frames, frame)
  {
    OneMoreFrame(frames, frame);
    hide Coherent, IdentityOf, PagesInOrder;
    var verdict := t.identity.value.CheckLaterFrame(frame, frames);
    if verdict.None? {
      return Err(Transport);
    }
    if t.assembler.Some? {
      ghost var slots := t.assembler.value.slots;
      if verdict.value.NewProloguePage? {
        var ok := t.assembler.value.AcceptPage(verdict.value.offset, frame.Page());
        if !ok {
          return Err(Transport);
        }
      }
      NextPage(slots, frames, frame);
    } else if verdict.value.NewProloguePage? {
      return Err(PagedPrologueUnsupported);
    }
    return Ok(verdict.value.NewProloguePage?);
  }

  lemma Written(buf: Bytes, frame: RangeFrame, maxLen: nat)
    requires frame.offset < maxLen
    ensures var (start, end) := (frame.offset, End(frame, maxLen));
            var window := if |buf| < end then ZeroExtend(buf, end) else buf;
            && start <= end <= |window| && end - start <= |frame.bytes|
            && window[..start] + frame.bytes[..end - start] + window[end..] ==
               Splice(buf, start, frame.bytes[..end - start])
  {
  }

  /** Clips the frame to the window and writes it, growing the buffer with zeros if it may grow. */
  method Place(buf: Bytes, frame: RangeFrame, maxLen: nat, canHold: nat -> bool) returns (r: Option<Bytes>)
    requires frame.offset < maxLen
    ensures r.Some? <==> |buf| >= End(frame, maxLen) || canHold(End(frame, maxLen))
    ensures r.Some? ==> r.value == Splice(buf, frame.offset, frame.bytes[..End(frame, maxLen) - frame.offset])
  {
    hide Splice, ZeroExtend;
    Written(buf, frame, maxLen);
    var start, take := frame.offset, Min(|frame.bytes|, maxLen - frame.offset);
    var end := start + take;
    var window := buf;
    if |buf| < end {
      if !canHold(end) {
        return None;
      }
      window := ZeroExtend(buf, end);
    }
    return Some(window[..start] + frame.bytes[..take] + window[end..]);
  }

  const NO_META := RangeMeta(None, None, None, None, None, None)

  /** `RangeMeta::from_frame`. */
  function FirstMeta(f: RangeFrame): RangeMeta {
    RangeMeta(f.totalLength, f.chunkLens, f.chunkCount, f.chunkIndex, f.root, f.inclusionProof)
  }

  function Declared(frames: seq<RangeFrame>): RangeMeta {
    if |frames| == 0 then NO_META else FirstMeta(frames[0])
  }

  /** The array a stream states: its pages if the first frame declares more than it carries, else the first frame's. */
  function Layout(frames: seq<RangeFrame>): Option<seq<nat>> {
    if frames == [] then None else if frames[0].Paged() then Some(Pages(frames)) else frames[0].chunkLens
  }

  /** What the first frame declares, with the whole array in place of its page if the prologue was paged. */
  function MetaOf(frames: seq<RangeFrame>): RangeMeta {
    Declared(frames).(chunkLens := Layout(frames))
  }

  /** If the first frame declares an array it does not carry, all its pages came, one after another. */
  ghost predicate LayoutWhole(frames: seq<RangeFrame>) {
    frames != [] && frames[0].Paged() ==> PagesInOrder(frames) && |Pages(frames)| == frames[0].chunkCount.value
  }

  /** A holder's answer: `content` split into frames at any granularity, pages of a layout riding along, if any. */
  datatype Answer = Answer(frames: seq<RangeFrame>, content: Bytes)
  {
    /** The bytes a reader of `maxLen` may keep of the first `k` frames' data. */
    function Window(k: nat, maxLen: nat): nat {
      if k <= |frames| then Min(maxLen, |Data(frames[..k])|) else 0
    }

    /** After `k` frames pages of the declared array are still missing. */
    predicate Awaits(k: nat)
      requires k <= |frames|
    {
      frames != [] && frames[0].Paged() && |Pages(frames[..k])| < frames[0].chunkCount.value
    }

    /** After `k` frames a reader of `maxLen` still waits for bytes or pages. */
    predicate Waiting(k: nat, maxLen: nat) {
      k <= |frames| && (|Data(frames[..k])| < maxLen || Awaits(k))
    }

    /** Frame `k` brings the next bytes or the next page, and starts where it may. */
    ghost predicate Faithful(k: nat, maxLen: nat)
      requires k < |frames|
    {
      var (f, sent) := (frames[k], |Data(frames[..k])|);
      && InShape(frames[..k], f) && (f.complete ==> k == |frames| - 1)
      && (if f.bytes == [] then f.offset <= sent else f.offset == sent)
      && (Waiting(k, maxLen) && maxLen > 0 ==> f.offset < maxLen)
      && (Waiting(k, maxLen) ==>
            || (f.chunkLens.Some? && (frames[0].Paged() || maxLen == 0)) || f.complete
            || (f.bytes != [] && maxLen > 0))
    }

    /** The frames carry `content` faithfully, whatever they say of its layout. */
    ghost predicate Streams(maxLen: nat) {
      frames != [] && Data(frames) == content && forall k :: 0 <= k < |frames| ==> Faithful(k, maxLen)
    }

    ghost predicate Conforms(maxLen: nat) { Streams(maxLen) && LayoutWhole(frames) }

    /** The stream carries exactly these frames. */
    ghost predicate SentOn(stream: nat -> Wire) {
      && (forall k :: 0 <= k < |frames| ==> stream(k) == Framed(frames[k]))
      && ((frames != [] && frames[|frames| - 1].complete) || stream(|frames|) == EndOfStream)
    }
  }

  lemma {:induction false} PartsArePrefixes(frames: seq<RangeFrame>, k: nat)
    requires k <= |frames|
    ensures Data(frames[..k]) <= Data(frames) && Pages(frames[..k]) <= Pages(frames)
  {
    if k < |frames| {
      var init := frames[..|frames| - 1];
      assert init[..k] == frames[..k];
      PartsArePrefixes(init, k);
    } else {
      assert frames[..k] == frames;
    }
  }

  lemma OneMorePart(h: Answer, k: nat, maxLen: nat)
    requires h.Conforms(maxLen) && k < |h.frames|
    ensures Data(h.frames[..k + 1]) == Data(h.frames[..k]) + h.frames[k].bytes <= h.content
    ensures Pages(h.frames[..k + 1]) == Pages(h.frames[..k]) + h.frames[k].Page() <= Pages(h.frames)
    ensures h.frames[0].Paged() ==> PagesInOrder(h.frames[..k + 1])
  {
    hide Answer.Faithful;
    var now := h.frames[..k + 1];
    assert now[..k] == h.frames[..k] && now[k] == h.frames[k];
    PartsArePrefixes(h.frames, k + 1);
    if h.frames[0].Paged() {
      forall i | 0 <= i < |now| && now[i].chunkLens.Some? ensures now[i].PageStart() == |Pages(now[..i])| {
        assert now[..i] == h.frames[..i];
      }
    }
  }

  lemma NextBytes(content: Bytes, sent: Bytes, bytes: Bytes, offset: nat, maxLen: nat)
    requires sent + bytes <= content && offset < maxLen
    requires if bytes == [] then offset <= |sent| else offset == |sent|
    ensures var (buf, now) := (content[..Min(maxLen, |sent|)], content[..Min(maxLen, |sent| + |bytes|)]);
            && offset <= |buf| && now == Splice(buf, offset, bytes[..Min(offset + |bytes|, maxLen) - offset])
            && (bytes != [] ==> |now| > |buf|)
  {
    var (buf, now) := (content[..Min(maxLen, |sent|)], content[..Min(maxLen, |sent| + |bytes|)]);
    var data := bytes[..Min(offset + |bytes|, maxLen) - offset];
    var spliced := Splice(buf, offset, data);
    assert spliced[offset..offset + |data|] == data;
    forall i | 0 <= i < |now| ensures now[i] == spliced[i] {
      assert content[i] == (sent + bytes)[i];
      if offset <= i < offset + |data| {
        assert spliced[i] == spliced[offset..offset + |data|][i - offset];
      }
    }
  }

  /** A faithful frame extends the window by exactly the next bytes. */
  lemma HonestBytes(h: Answer, k: nat, maxLen: nat)
    requires h.Conforms(maxLen) && k < |h.frames| && maxLen > 0 && (k == 0 || h.Waiting(k, maxLen))
    ensures h.Window(k, maxLen) <= |h.content| && h.Window(k + 1, maxLen) <= |h.content|
    ensures var (f, buf) := (h.frames[k], h.content[..h.Window(k, maxLen)]);
            && f.offset < maxLen && f.offset <= |buf|
            && h.content[..h.Window(k + 1, maxLen)] ==
               Splice(buf, f.offset, f.bytes[..End(f, maxLen) - f.offset])
            && (f.bytes != [] ==> h.Window(k + 1, maxLen) > |buf|)
  {
    hide Data, Pages, Splice, Answer.Conforms, Answer.Streams, Answer.Faithful, Answer.Waiting, Answer.Awaits;
    HonestOffset(h, k, maxLen);
    NextBytes(h.content, Data(h.frames[..k]), h.frames[k].bytes, h.frames[k].offset, maxLen);
  }

  /** A faithful frame starts inside the window, where the bytes before it end, or earlier if it has none. */
  lemma HonestOffset(h: Answer, k: nat, maxLen: nat)
    requires h.Conforms(maxLen) && k < |h.frames| && maxLen > 0 && (k == 0 || h.Waiting(k, maxLen))
    ensures var (f, sent) := (h.frames[k], Data(h.frames[..k]));
            && sent + f.bytes == Data(h.frames[..k + 1]) <= h.content && f.offset < maxLen
            && if f.bytes == [] then f.offset <= |sent| else f.offset == |sent|
  {
    OneMorePart(h, k, maxLen);
    assert h.Faithful(k, maxLen);
    assert k == 0 ==> Data(h.frames[..k]) == [];
    hide PagesInOrder, InShape, Data, Pages;
  }

  /** Where the faithful answer `h` stands after `k` frames. */
  ghost predicate OnCourse(h: Answer, frames: seq<RangeFrame>, buf: Bytes, maxLen: nat) {
    var k := |frames|;
    && h.Conforms(maxLen) && k <= |h.frames| && frames == h.frames[..k]
    && h.Window(k, maxLen) <= |h.content| && buf == h.content[..h.Window(k, maxLen)]
  }

  /** The next frame of the faithful answer, due because bytes or pages are still missing. */
  ghost predicate Due(h: Answer, frames: seq<RangeFrame>, frame: RangeFrame, buf: Bytes, maxLen: nat) {
    && OnCourse(h, frames, buf, maxLen) && |frames| < |h.frames| && frame == h.frames[|frames|]
    && (frames == [] || h.Waiting(|frames|, maxLen))
  }

  /** The window after placing `frame`; a metadata-only read has none. */
  function NextWindow(buf: Bytes, frame: RangeFrame, maxLen: nat): Bytes {
    if frame.offset >= maxLen then buf else Splice(buf, frame.offset, frame.bytes[..End(frame, maxLen) - frame.offset])
  }

  lemma NextWindowIs(buf: Bytes, frame: RangeFrame, maxLen: nat)
    ensures frame.offset >= maxLen ==> NextWindow(buf, frame, maxLen) == buf
    ensures frame.offset < maxLen ==>
              var now := Splice(buf, frame.offset, frame.bytes[..End(frame, maxLen) - frame.offset]);
              NextWindow(buf, frame, maxLen) == now && |now| == Max(|buf|, End(frame, maxLen))
  {
  }

  lemma NextPainted(frames: seq<RangeFrame>, frame: RangeFrame, maxLen: nat)
    requires maxLen > 0 ==> frame.offset < maxLen
    ensures Painted(frames + [frame], maxLen) == NextWindow(Painted(frames, maxLen), frame, maxLen)
  {
    if maxLen > 0 {
      PaintedStep(frames, frame, maxLen);
    } else {
      assert Painted(frames + [frame], maxLen) == [] == Painted(frames, maxLen);
    }
  }

  /** A faithful frame that is due is admitted and starts inside the window. */
  lemma HonestStart(h: Answer, frames: seq<RangeFrame>, frame: RangeFrame, buf: Bytes, maxLen: nat)
    requires Due(h, frames, frame, buf, maxLen)
    ensures InShape(frames, frame) && (maxLen > 0 ==> frame.offset < maxLen)
    ensures h.frames[..|frames| + 1] == frames + [frame] && (frames + [frame])[0] == h.frames[0]
  {
    assert h.Faithful(|frames|, maxLen);
    hide InShape, PagesInOrder, Pages;
    assert frames == [] ==> Data(frames) == [];
  }

  /** It extends the window by the right bytes. */
  lemma HonestTurn(h: Answer, frames: seq<RangeFrame>, frame: RangeFrame, buf: Bytes, maxLen: nat)
    requires Due(h, frames, frame, buf, maxLen)
    ensures OnCourse(h, frames + [frame], NextWindow(buf, frame, maxLen), maxLen)
    ensures h.Waiting(|frames| + 1, maxLen) <==>
              |NextWindow(buf, frame, maxLen)| < maxLen || h.Awaits(|frames| + 1)
  {
    hide Answer.Conforms, InShape, Answer.Waiting, Answer.Awaits, Answer.Window, NextWindow;
    HonestStart(h, frames, frame, buf, maxLen);
    HonestStep(h, frames, frame, buf, maxLen);
    HonestWaits(h, frames + [frame], NextWindow(buf, frame, maxLen), maxLen);
  }

  lemma HonestStep(h: Answer, frames: seq<RangeFrame>, frame: RangeFrame, buf: Bytes, maxLen: nat)
    requires Due(h, frames, frame, buf, maxLen)
    ensures h.Window(|frames| + 1, maxLen) <= |h.content|
    ensures NextWindow(buf, frame, maxLen) == h.content[..h.Window(|frames| + 1, maxLen)]
  {
    hide Answer.Conforms, Answer.Waiting, Data, Splice;
    if maxLen > 0 {
      HonestBytes(h, |frames|, maxLen);
    }
  }

  lemma HonestWaits(h: Answer, frames: seq<RangeFrame>, buf: Bytes, maxLen: nat)
    requires OnCourse(h, frames, buf, maxLen)
    ensures h.Waiting(|frames|, maxLen) <==> |buf| < maxLen || h.Awaits(|frames|)
  {
    hide Answer.Conforms, Data;
  }

  /** A faithful frame that is due completes the answer, or brings a byte or a page. */
  lemma HonestProgress(h: Answer, frames: seq<RangeFrame>, frame: RangeFrame, buf: Bytes, maxLen: nat)
    requires Due(h, frames, frame, buf, maxLen)
    ensures !h.Waiting(|frames| + 1, maxLen) || (frame.complete && maxLen > 0)
            || (frame.chunkLens.Some? && h.frames[0].Paged())
            || (maxLen > 0 && End(frame, maxLen) > |buf|)
  {
    if maxLen > 0 {
      BytesProgress(h, |frames|, maxLen);
    } else {
      MetaProgress(h, |frames|);
    }
    hide InShape, LayoutWhole, Data, Pages, Answer.Faithful;
  }

  /** A frame due to a reader of bytes brings some, or a page, or completes the answer. */
  lemma BytesProgress(h: Answer, k: nat, maxLen: nat)
    requires h.Conforms(maxLen) && k < |h.frames| && maxLen > 0 && (k == 0 || h.Waiting(k, maxLen))
    ensures var f := h.frames[k];
            f.complete || (f.chunkLens.Some? && h.frames[0].Paged()) || End(f, maxLen) > h.Window(k, maxLen)
  {
    assert h.Faithful(k, maxLen);
    assert k == 0 ==> Data(h.frames[..k]) == [];
    hide InShape, LayoutWhole, Pages, Data, Answer.Awaits;
    HonestOffset(h, k, maxLen);
  }

  /** A frame due to a reader of metadata brings a page, or nothing more of the layout is missing. */
  lemma MetaProgress(h: Answer, k: nat)
    requires h.Conforms(0) && k < |h.frames| && (k == 0 || h.Waiting(k, 0))
    ensures !h.Awaits(k + 1) || (h.frames[k].chunkLens.Some? && h.frames[0].Paged())
  {
    assert h.Faithful(k, 0);
    assert k + 1 == |h.frames| ==> h.frames[..k + 1] == h.frames;
    assert k == 0 ==> Pages(h.frames[..k]) == [];
    hide InShape, PagesInOrder, Pages, Data;
  }

  /** The reader sees the faithful prologue drained exactly when none of its pages is missing. */
  lemma HonestDrained(h: Answer, v: View, frames: seq<RangeFrame>, buf: Bytes, maxLen: nat)
    requires frames != [] && Tracks(v, frames) && OnCourse(h, frames, buf, maxLen)
    ensures v.slots.None? || Full(v.slots.value) <==> !h.Awaits(|frames|)
    ensures v.slots.Some? && !h.Awaits(|frames|) ==> Pages(frames) == Pages(h.frames)
  {
    OneMorePart(h, |frames| - 1, maxLen);
    if v.slots.Some? {
      Completion(v.slots.value, frames);
    }
  }


  /** Whether the reader stops after `frame`: once all was said, or all it waits for has come. */
  ghost predicate Stops(v: View, frame: RangeFrame, window: Bytes, maxLen: nat)
  {
    var drained := v.slots.None? || Full(v.slots.value);
    if maxLen == 0 then drained else frame.complete || (drained && |window| >= maxLen)
  }

  ghost predicate Progresses(v: View, frame: RangeFrame, buf: Bytes, maxLen: nat) {
    (frame.chunkLens.Some? && v.slots.Some?) || (maxLen > 0 && End(frame, maxLen) > |buf|)
  }

  /** On a faithful frame that is due the reader stops just when it should, and otherwise has made progress. */
  lemma HonestVerdict(h: Answer, v: View,
                      frames: seq<RangeFrame>, frame: RangeFrame, buf: Bytes, maxLen: nat)
    requires Due(h, frames, frame, buf, maxLen) && Tracks(v, frames + [frame])
    ensures var window := NextWindow(buf, frame, maxLen);
            && OnCourse(h, frames + [frame], window, maxLen)
            && (Stops(v, frame, window, maxLen) <==>
                  (frame.complete && maxLen > 0) || !h.Waiting(|frames| + 1, maxLen))
            && (Stops(v, frame, window, maxLen) || Progresses(v, frame, buf, maxLen))
  {
    HonestStart(h, frames, frame, buf, maxLen);
    HonestTurn(h, frames, frame, buf, maxLen);
    HonestProgress(h, frames, frame, buf, maxLen);
    HonestDrained(h, v, frames + [frame], NextWindow(buf, frame, maxLen), maxLen);
    hide InShape, Assembled, Pages, Data, OnCourse, Due, Coherent, NextWindow, IdentityOf, Full, End;
    hide Answer.Waiting, Answer.Awaits;
  }

  lemma TracksStart(v: View, frames: seq<RangeFrame>)
    requires Tracks(v, frames)
    ensures v.identity.None? <==> frames == []
    ensures frames == [] ==> v.slots.None? && Pages(frames) == []
  {
  }

  /** Identity and prologue: what the reader does with a frame before it looks at its bytes. */
  method Admit(t: Trackers, frame: RangeFrame, ghost frames: seq<RangeFrame>)
    returns (r: Result<bool, DownloadError>, now: Trackers)
    requires Tracks(t.Held(), frames)
    modifies t.Parts()
    ensures fresh(now.Parts() - t.Parts())
    ensures r.Ok? ==> Tracks(now.Held(), frames + [frame]) && r.value == (frame.chunkLens.Some? && now.assembler.Some?)
    ensures r.Ok? ==> |Pages(frames + [frame])| >= |Pages(frames)| + if r.value then 1 else 0
    ensures t.assembler.Some? ==> now.assembler == t.assembler
    ensures r.Err? ==> r.error.IsRecoverable()
    ensures r.Ok? <==> InShape(frames, frame)
  {
    PagesInOrderStep(frames, frame);
    TracksStart(t.Held(), frames);
    hide Tracks, Pages, PagesInOrder, InShape, PageCount;
    if t.identity.None? {
      assert frames + [frame] == [frame];
      r, now := AdmitFirst(frame);
    } else {
      now := t;
      r := AdmitLater(t, frame, frames);
    }
  }

  /** The frame lies past the window, or memory for it cannot be had. */
  predicate Unplaceable(frame: RangeFrame, held: nat, maxLen: nat, canHold: nat -> bool) {
    maxLen > 0 && (frame.offset >= maxLen || (held < End(frame, maxLen) && !canHold(End(frame, maxLen))))
  }

  /** One turn of the reader's loop: fails, stops, or has made progress. */
  method OnFrame(frame: RangeFrame, t: Trackers,
                 buf: Bytes, byteFrontier: nat, maxLen: nat, canHold: nat -> bool, ghost frames: seq<RangeFrame>)
    returns (r: Result<bool, DownloadError>, now: Trackers,
             window: Bytes, frontier: nat)
    requires Tracks(t.Held(), frames) && byteFrontier == |buf|
    modifies t.Parts()
    ensures fresh(now.Parts() - t.Parts())
    ensures r.Ok? ==>
              && Tracks(now.Held(), frames + [frame])
              && window == NextWindow(buf, frame, maxLen) && frontier == |window|
              && (maxLen > 0 ==> frame.offset < maxLen) && r.value == Stops(now.Held(), frame, window, maxLen)
              && (r.value || Progresses(now.Held(), frame, buf, maxLen))
              && (t.assembler.Some? ==> now.assembler == t.assembler)
              && |Pages(frames + [frame])| >=
                 |Pages(frames)| + if frame.chunkLens.Some? && now.assembler.Some? then 1 else 0
    ensures r.Err? ==> r.error.IsRecoverable()
    ensures !InShape(frames, frame) ==> r.Err?
    ensures InShape(frames, frame) ==>
              && Tracks(now.Held(), frames + [frame])
              && (r.Err? <==>
                    || Unplaceable(frame, |buf|, maxLen, canHold)
                    || (&& !Stops(now.Held(), frame, NextWindow(buf, frame, maxLen), maxLen)
                        && !Progresses(now.Held(), frame, buf, maxLen)))
  {
    hide InShape, Tracks, Pages, Full, NextWindow;
    NextWindowIs(buf, frame, maxLen);
    window, frontier := buf, byteFrontier;
    var admitted;
    admitted, now := Admit(t, frame, frames);
    if admitted.Err? {
      return Err(admitted.error), now, window, frontier;
    }
    var drained := now.assembler.None? || now.assembler.value.IsComplete();
    if maxLen == 0 {
      if !drained && !admitted.value {
        return Err(Transport), now, window, frontier;
      }
      return Ok(drained), now, window, frontier;
    }
    if frame.offset >= maxLen {
      return Err(Transport), now, window, frontier;
    }
    var end := End(frame, maxLen);
    var placed := Place(buf, frame, maxLen, canHold);
    if placed.None? {
      return Err(Transport), now, window, frontier;
    }
    window := placed.value;
    if frame.complete || (drained && |window| >= maxLen) {
      return Ok(true), now, window, |window|;
    }
    if end <= byteFrontier && !admitted.value {
      return Err(Transport), now, window, frontier;
    }
    return Ok(false), now, window, Max(byteFrontier, end);
  }

  /** The declared array has so many pages; a reader places none of an array it does not size. */
  function Capacity(frames: seq<RangeFrame>): nat {
    if frames == [] || !frames[0].Paged() || frames[0].chunkCount.value > MAX_RESOURCE_CHUNK_COUNT then 0
    else PagesFor(frames[0].chunkCount.value)
  }

  /** The frames that brought a page of the declared array. */
  function PlacedPages(frames: seq<RangeFrame>): nat {
    if frames == [] || !frames[0].Paged() then 0 else PageCount(frames)
  }

  /** The reader's state after `frames`. */
  ghost predicate Reading(v: View, buf: Bytes, frames: seq<RangeFrame>, maxLen: nat) {
    Tracks(v, frames) && buf == Painted(frames, maxLen)
  }

  lemma CapacityHolds(v: View, buf: Bytes, frames: seq<RangeFrame>, maxLen: nat)
    requires Reading(v, buf, frames, maxLen)
    ensures PlacedPages(frames) <= Capacity(frames) && |buf| <= maxLen
  {
    if frames != [] && v.slots.Some? {
      PagesFit(v.slots.value, frames);
    }
    hide PagesFor, PageCount;
  }

  /** A turn of the loop that did not fail keeps the reader's state, and got further unless it stops. */
  lemma Advances(v: View, buf: Bytes, frames: seq<RangeFrame>, frame: RangeFrame, maxLen: nat, stop: bool)
    requires Tracks(v, frames + [frame]) && buf == Painted(frames, maxLen)
    requires maxLen > 0 ==> frame.offset < maxLen
    requires stop || Progresses(v, frame, buf, maxLen)
    ensures var (window, all) := (NextWindow(buf, frame, maxLen), frames + [frame]);
            && Reading(v, window, all, maxLen) && |window| >= |buf| && PlacedPages(all) >= PlacedPages(frames)
            && (stop || |window| + PlacedPages(all) > |buf| + PlacedPages(frames))
  {
    hide Painted, NextWindow, Tracks, PlacedPages;
    PlacedStep(v, frames, frame);
    NextPainted(frames, frame, maxLen);
    NextWindowIs(buf, frame, maxLen);
  }

  lemma PlacedStep(v: View, frames: seq<RangeFrame>, frame: RangeFrame)
    requires Tracks(v, frames + [frame])
    ensures PlacedPages(frames + [frame]) ==
            PlacedPages(frames) + if frame.chunkLens.Some? && v.slots.Some? then 1 else 0
  {
    PagesInOrderStep(frames, frame);
    hide Assembled, Coherent, PagesInOrder, Pages, IdentityOf;
  }

  // ---- what the reader does with a stream, without its running state ---------------------------------

  /** Nothing more is wanted after these frames: the last one ends the stream, or the window and the layout are full. */
  ghost predicate Sated(frames: seq<RangeFrame>, maxLen: nat) {
    && frames != []
    && if maxLen == 0 then LayoutWhole(frames)
       else frames[|frames| - 1].complete || (LayoutWhole(frames) && |Painted(frames, maxLen)| >= maxLen)
  }

  /** `frame`, after `frames`, brings a page of the declared layout, or extends the window. */
  ghost predicate Gains(frames: seq<RangeFrame>, frame: RangeFrame, maxLen: nat) {
    || (frame.chunkLens.Some? && (frames + [frame])[0].Paged())
    || (maxLen > 0 && End(frame, maxLen) > |Painted(frames, maxLen)|)
  }

  /** `frame` may not follow `frames`: the wrong shape, nowhere to put it, or no use. */
  ghost predicate Refused(frames: seq<RangeFrame>, frame: RangeFrame, maxLen: nat, canHold: nat -> bool) {
    || !InShape(frames, frame) || Unplaceable(frame, |Painted(frames, maxLen)|, maxLen, canHold)
    || (!Sated(frames + [frame], maxLen) && !Gains(frames, frame, maxLen))
  }

  /** Every frame was accepted, and more was wanted after it. */
  ghost predicate Wanting(frames: seq<RangeFrame>, maxLen: nat, canHold: nat -> bool) {
    forall k :: 0 <= k < |frames| ==> Passed(frames, k, maxLen, canHold)
  }

  ghost predicate Passed(frames: seq<RangeFrame>, k: nat, maxLen: nat, canHold: nat -> bool)
    requires k < |frames|
  {
    !Refused(frames[..k], frames[k], maxLen, canHold) && !Sated(frames[..k + 1], maxLen)
  }

  /** Where reading ends: `frames` are the frames read, `n` the items, `ok` whether the last item was in order. */
  ghost predicate Halts(stream: nat -> Wire, maxLen: nat, canHold: nat -> bool, n: nat, frames: seq<RangeFrame>,
                        ok: bool) {
    && Consumed(stream, frames)
    && if n == |frames| + 1 then
         Wanting(frames, maxLen, canHold) && stream(|frames|) == if ok then EndOfStream else Broken
       else
         && n == |frames| > 0 && Wanting(AllButLast(frames), maxLen, canHold)
         && (ok <==> !Refused(AllButLast(frames), frames[n - 1], maxLen, canHold))
         && (ok ==> Sated(frames, maxLen))
  }

  lemma WantingMore(frames: seq<RangeFrame>, frame: RangeFrame, maxLen: nat, canHold: nat -> bool)
    requires Wanting(frames, maxLen, canHold) && !Refused(frames, frame, maxLen, canHold)
    requires !Sated(frames + [frame], maxLen)
    ensures Wanting(frames + [frame], maxLen, canHold)
  {
    hide Refused, Sated;
    var all := frames + [frame];
    forall k | 0 <= k < |all| ensures Passed(all, k, maxLen, canHold) {
      if k < |frames| {
        assert Passed(frames, k, maxLen, canHold);
        assert all[..k] == frames[..k] && all[..k + 1] == frames[..k + 1];
      } else {
        assert all[..k] == frames && all[..k + 1] == all;
      }
    }
  }

  lemma HaltsHere(stream: nat -> Wire, maxLen: nat, canHold: nat -> bool, frames: seq<RangeFrame>, frame: RangeFrame)
    requires Consumed(stream, frames) && Wanting(frames, maxLen, canHold) && stream(|frames|) == Framed(frame)
    ensures !Refused(frames, frame, maxLen, canHold) && Sated(frames + [frame], maxLen) ==>
              Halts(stream, maxLen, canHold, |frames| + 1, frames + [frame], true)
    ensures Refused(frames, frame, maxLen, canHold) ==>
              Halts(stream, maxLen, canHold, |frames| + 1, frames + [frame], false)
    ensures !Refused(frames, frame, maxLen, canHold) && !Sated(frames + [frame], maxLen) ==>
              Wanting(frames + [frame], maxLen, canHold)
  {
    hide Refused, Sated;
    assert AllButLast(frames + [frame]) == frames;
    if !Refused(frames, frame, maxLen, canHold) && !Sated(frames + [frame], maxLen) {
      WantingMore(frames, frame, maxLen, canHold);
    }
  }

  lemma HaltsBetween(stream: nat -> Wire, maxLen: nat, canHold: nat -> bool, frames: seq<RangeFrame>)
    requires Consumed(stream, frames) && Wanting(frames, maxLen, canHold)
    ensures stream(|frames|) == EndOfStream ==> Halts(stream, maxLen, canHold, |frames| + 1, frames, true)
    ensures stream(|frames|) == Broken ==> Halts(stream, maxLen, canHold, |frames| + 1, frames, false)
  {
  }

  /** Where reading ends is determined by the stream. */
  lemma HaltsOnce(stream: nat -> Wire, maxLen: nat, canHold: nat -> bool, n: nat, frames: seq<RangeFrame>, ok: bool,
                  n': nat, frames': seq<RangeFrame>, ok': bool)
    requires Halts(stream, maxLen, canHold, n, frames, ok) && Halts(stream, maxLen, canHold, n', frames', ok')
    ensures n == n' && frames == frames' && ok == ok'
  {
    hide Refused, Sated;
    if |frames| <= |frames'| {
      NoFurther(stream, maxLen, canHold, n, frames, ok, n', frames', ok');
    } else {
      NoFurther(stream, maxLen, canHold, n', frames', ok', n, frames, ok);
    }
  }

  lemma NoFurther(stream: nat -> Wire, maxLen: nat, canHold: nat -> bool, n: nat, frames: seq<RangeFrame>, ok: bool,
                  n': nat, frames': seq<RangeFrame>, ok': bool)
    requires Halts(stream, maxLen, canHold, n, frames, ok) && Halts(stream, maxLen, canHold, n', frames', ok')
    requires |frames| <= |frames'|
    ensures n == n' && frames == frames' && ok == ok'
  {
    hide Refused, Sated;
    assert frames == frames'[..|frames|] by {
      assert forall k :: 0 <= k < |frames| ==> Framed(frames[k]) == stream(k) == Framed(frames'[k]);
    }
    if |frames| < |frames'| {
      NotHalted(maxLen, canHold, frames', |frames|);
    } else {
      assert frames == frames';
      if n != n' {
        NotBoth(maxLen, canHold, frames);
      }
    }
  }

  /** A frame followed by another that was read was accepted, and more was wanted after it. */
  lemma NotHalted(maxLen: nat, canHold: nat -> bool, frames: seq<RangeFrame>, k: nat)
    requires 0 <= k < |frames|
    requires Wanting(frames, maxLen, canHold) || Wanting(AllButLast(frames), maxLen, canHold)
    ensures k > 0 ==> !Refused(AllButLast(frames[..k]), frames[k - 1], maxLen, canHold) && !Sated(frames[..k], maxLen)
  {
    hide Refused, Sated;
    if k > 0 {
      var init := AllButLast(frames);
      assert Passed(init, k - 1, maxLen, canHold) by {
        if Wanting(frames, maxLen, canHold) {
          assert Passed(frames, k - 1, maxLen, canHold);
          assert init[..k - 1] == frames[..k - 1] && init[..k - 1 + 1] == frames[..k - 1 + 1];
        }
      }
      assert AllButLast(frames[..k]) == init[..k - 1] && init[k - 1] == frames[k - 1];
      assert init[..k - 1 + 1] == frames[..k];
    }
  }

  /** Reading does not both stop at the last frame and go on after it. */
  lemma NotBoth(maxLen: nat, canHold: nat -> bool, frames: seq<RangeFrame>)
    requires Wanting(frames, maxLen, canHold) && frames != []
    ensures !Refused(AllButLast(frames), frames[|frames| - 1], maxLen, canHold) && !Sated(frames, maxLen)
  {
    hide Refused, Sated;
    assert Passed(frames, |frames| - 1, maxLen, canHold);
    assert frames[..|frames| - 1 + 1] == frames;
  }

  /** `frames` are the stream's first frames. */
  ghost predicate Consumed(stream: nat -> Wire, frames: seq<RangeFrame>) {
    forall k :: 0 <= k < |frames| ==> stream(k) == Framed(frames[k])
  }

  /** None of the frames ends a read that keeps bytes. */
  predicate Unfinished(frames: seq<RangeFrame>, maxLen: nat) {
    maxLen > 0 ==> forall k :: 0 <= k < |frames| ==> !frames[k].complete
  }

  function AllButLast(frames: seq<RangeFrame>): seq<RangeFrame>
    requires frames != []
  {
    frames[..|frames| - 1]
  }

  /** A faithful answer ends with the window as full as its content allows. */
  lemma HonestWindow(h: Answer, frames: seq<RangeFrame>, buf: Bytes, maxLen: nat)
    requires OnCourse(h, frames, buf, maxLen) && (frames == h.frames || !h.Waiting(|frames|, maxLen))
    ensures buf == h.content[..Min(maxLen, |h.content|)]
  {
    PartsArePrefixes(h.frames, |frames|);
    hide Answer.Faithful, LayoutWhole, Data, Pages;
    assert frames == h.frames[..|frames|];
  }

  /** And with its whole layout read. */
  lemma HonestEnd(h: Answer, v: View, frames: seq<RangeFrame>, buf: Bytes, maxLen: nat)
    requires frames != [] && Tracks(v, frames) && OnCourse(h, frames, buf, maxLen)
    requires frames == h.frames || !h.Waiting(|frames|, maxLen)
    ensures v.slots.Some? ==> Full(v.slots.value)
    ensures Layout(frames) == Layout(h.frames)
  {
    HonestDrained(h, v, frames, buf, maxLen);
    hide Assembled, Coherent, PagesInOrder, Answer.Faithful, Data, Pages, Full;
    assert frames == h.frames[..|frames|];
  }

  ghost predicate Roomy(canHold: nat -> bool) { forall n: nat :: canHold(n) }

  /** The stream is a faithful answer, and memory suffices for it. */
  ghost predicate Served(h: Answer, stream: nat -> Wire, maxLen: nat, canHold: nat -> bool) {
    h.Conforms(maxLen) && h.SentOn(stream) && Roomy(canHold)
  }

  /** How far the reader came: every frame brought a byte or a page, and a faithful answer is on course. */
  ghost predicate Underway(stream: nat -> Wire, maxLen: nat, served: bool, h: Answer, frames: seq<RangeFrame>,
                           buf: Bytes) {
    && Consumed(stream, frames) && Unfinished(frames, maxLen)
    && |frames| <= |buf| + PlacedPages(frames) && |buf| <= maxLen && PlacedPages(frames) <= Capacity(frames)
    && (served ==> OnCourse(h, frames, buf, maxLen) && (frames == [] || h.Waiting(|frames|, maxLen)))
  }

  /** What the reader still may do. */
  function Left(maxLen: nat, frames: seq<RangeFrame>, buf: Bytes): nat {
    var pages := if |frames| == 0 then MAX_RESOURCE_CHUNK_COUNT else Capacity(frames);
    var done := |buf| + PlacedPages(frames);
    if done <= maxLen + pages then maxLen + pages - done else 0
  }

  /** Every frame consumed but the last brought a byte or a page, and none of those ended the stream. */
  ghost predicate Spent(stream: nat -> Wire, maxLen: nat, frames: seq<RangeFrame>) {
    && Consumed(stream, frames)
    && (frames != [] ==>
          var init := AllButLast(frames);
          && Unfinished(init, maxLen)
          && |init| <= maxLen + PlacedPages(init) && PlacedPages(init) <= Capacity(frames))
  }

  /** While a faithful answer is on course, what comes next is its next frame, or its end. */
  lemma HonestNext(h: Answer, stream: nat -> Wire, frames: seq<RangeFrame>, buf: Bytes, maxLen: nat)
    requires Underway(stream, maxLen, true, h, frames, buf) && h.SentOn(stream)
    ensures OnCourse(h, frames, buf, maxLen) && h.frames != []
    ensures if frames == h.frames then stream(|frames|) == EndOfStream
            else
              && |frames| < |h.frames| && stream(|frames|) == Framed(h.frames[|frames|])
              && Due(h, frames, h.frames[|frames|], buf, maxLen)
              && (h.frames[|frames|].complete ==> frames + [h.frames[|frames|]] == h.frames)
  {
    if |frames| < |h.frames| {
      assert h.Faithful(|frames|, maxLen);
    }
    assert frames == h.frames[..|frames|];
    assert h.frames[..|h.frames|] == h.frames;
  }

  lemma OneLess(frames: seq<RangeFrame>)
    requires frames != []
    ensures PlacedPages(AllButLast(frames)) <= PlacedPages(frames) <= PlacedPages(AllButLast(frames)) + 1
  {
    assert |frames| == 1 ==> AllButLast(frames) == [];
  }

  lemma Consumes(stream: nat -> Wire, maxLen: nat, served: bool, h: Answer, frames: seq<RangeFrame>, buf: Bytes)
    requires Underway(stream, maxLen, served, h, frames, buf)
    ensures Spent(stream, maxLen, frames)
    ensures stream(|frames|).Framed? ==> Spent(stream, maxLen, frames + [stream(|frames|).frame])
  {
    if frames != [] {
      OneLess(frames);
    }
    if stream(|frames|).Framed? {
      assert AllButLast(frames + [stream(|frames|).frame]) == frames;
    }
    hide OnCourse, Answer.Waiting, PagesFor, PageCount;
  }

  lemma StaysUnderway(stream: nat -> Wire, maxLen: nat, served: bool, h: Answer, frames: seq<RangeFrame>, buf: Bytes,
                      frame: RangeFrame, window: Bytes)
    requires Underway(stream, maxLen, served, h, frames, buf) && stream(|frames|) == Framed(frame)
    requires |window| <= maxLen && PlacedPages(frames + [frame]) <= Capacity(frames + [frame])
    requires |window| + PlacedPages(frames + [frame]) > |buf| + PlacedPages(frames)
    requires maxLen > 0 ==> !frame.complete
    requires served ==> OnCourse(h, frames + [frame], window, maxLen) && h.Waiting(|frames| + 1, maxLen)
    ensures Underway(stream, maxLen, served, h, frames + [frame], window)
    ensures Left(maxLen, frames + [frame], window) < Left(maxLen, frames, buf)
  {
    hide OnCourse, Answer.Waiting, PlacedPages, Capacity, Left;
    assert Consumed(stream, frames + [frame]) && Unfinished(frames + [frame], maxLen);
    LeftDrops(maxLen, frames, buf, frame, window);
  }

  lemma LeftDrops(maxLen: nat, frames: seq<RangeFrame>, buf: Bytes, frame: RangeFrame, window: Bytes)
    requires |window| <= maxLen && PlacedPages(frames + [frame]) <= Capacity(frames + [frame])
    requires |window| + PlacedPages(frames + [frame]) > |buf| + PlacedPages(frames)
    ensures Left(maxLen, frames + [frame], window) < Left(maxLen, frames, buf)
  {
    hide PlacedPages;
    assert Capacity(frames + [frame]) <= if |frames| == 0 then MAX_RESOURCE_CHUNK_COUNT else Capacity(frames);
    hide Capacity;
  }

  /** The loop's invariant. */
  ghost predicate Ongoing(stream: nat -> Wire, maxLen: nat, served: bool, h: Answer, v: View, frames: seq<RangeFrame>,
                          buf: Bytes) {
    Reading(v, buf, frames, maxLen) && Underway(stream, maxLen, served, h, frames, buf)
  }

  /** What holds when the loop ends, with the first frame's declaration or an error. */
  ghost predicate Ended(stream: nat -> Wire, maxLen: nat, served: bool, h: Answer, v: View, frames: seq<RangeFrame>,
                        buf: Bytes, r: Result<RangeMeta, DownloadError>) {
    && Spent(stream, maxLen, frames)
    && (r.Ok? ==> Reading(v, buf, frames, maxLen) && r.value == Declared(frames))
    && (r.Ok? && |frames| == 0 ==> !stream(0).Framed?)
    && (r.Err? ==> r.error.IsRecoverable())
    && (served ==>
          && r.Ok? && OnCourse(h, frames, buf, maxLen) && |frames| > 0
          && (frames == h.frames || !h.Waiting(|frames|, maxLen)))
  }

  /** Reading ends when the stream breaks, which a faithful answer does not, or ends. */
  lemma Ahead(stream: nat -> Wire, maxLen: nat, served: bool, h: Answer, v: View, frames: seq<RangeFrame>, buf: Bytes)
    requires Ongoing(stream, maxLen, served, h, v, frames, buf) && (served ==> h.SentOn(stream))
    ensures var r := if stream(|frames|).Broken? then Err(Transport) else Ok(Declared(frames));
            !stream(|frames|).Framed? ==> Ended(stream, maxLen, served, h, v, frames, buf, r)
    ensures Consumed(stream, frames)
  {
    Consumes(stream, maxLen, served, h, frames, buf);
    if served {
      HonestNext(h, stream, frames, buf, maxLen);
    }
    hide Reading, Underway, Spent, OnCourse, Due, Answer.SentOn, Answer.Waiting, Declared;
  }

  /** Before a turn: the frame is the one a faithful answer owes. */
  lemma Expect(stream: nat -> Wire, maxLen: nat, served: bool, h: Answer, v: View, frames: seq<RangeFrame>, buf: Bytes,
               frame: RangeFrame)
    requires Ongoing(stream, maxLen, served, h, v, frames, buf) && stream(|frames|) == Framed(frame)
    requires served ==> h.SentOn(stream)
    ensures Reading(v, buf, frames, maxLen) && Underway(stream, maxLen, served, h, frames, buf)
    ensures Consumed(stream, frames)
    ensures Declared(frames + [frame]) == if |frames| == 0 then FirstMeta(frame) else Declared(frames)
    ensures served ==> Due(h, frames, frame, buf, maxLen) && (frame.complete ==> frames + [frame] == h.frames)
  {
    if served {
      HonestNext(h, stream, frames, buf, maxLen);
    }
    hide Reading, Underway, OnCourse, Due, Answer.SentOn, FirstMeta;
  }

  /** After a turn: reading goes on or has ended. */
  lemma Conclude(stream: nat -> Wire, maxLen: nat, served: bool, h: Answer, v: View, frames: seq<RangeFrame>,
                 buf: Bytes, frame: RangeFrame, window: Bytes, r: Result<bool, DownloadError>)
    requires Underway(stream, maxLen, served, h, frames, buf) && stream(|frames|) == Framed(frame)
    requires r.Ok? ==> Reading(v, window, frames + [frame], maxLen)
    requires r == Ok(false) ==>
               && |window| + PlacedPages(frames + [frame]) > |buf| + PlacedPages(frames)
               && (maxLen > 0 ==> !frame.complete)
    requires r.Err? ==> r.error.IsRecoverable()
    requires served ==>
               && r.Ok? && OnCourse(h, frames + [frame], window, maxLen)
               && (r.value <==> (frame.complete && maxLen > 0) || !h.Waiting(|frames| + 1, maxLen))
               && (frame.complete ==> frames + [frame] == h.frames)
    ensures r == Ok(false) ==>
              && Ongoing(stream, maxLen, served, h, v, frames + [frame], window)
              && Left(maxLen, frames + [frame], window) < Left(maxLen, frames, buf)
    ensures r != Ok(false) ==>
              var meta := if r.Ok? then Ok(Declared(frames + [frame])) else Err(r.error);
              Ended(stream, maxLen, served, h, v, frames + [frame], window, meta)
  {
    hide Reading, Underway, Spent, OnCourse, Left, Declared, Answer.Waiting, PlacedPages, Capacity;
    Consumes(stream, maxLen, served, h, frames, buf);
    if r == Ok(false) {
      CapacityHolds(v, window, frames + [frame], maxLen);
      StaysUnderway(stream, maxLen, served, h, frames, buf, frame, window);
    }
  }

  /** What the reader's trackers say of a frame is what the frames say. */
  lemma Judged(v: View, frames: seq<RangeFrame>, frame: RangeFrame, buf: Bytes, maxLen: nat, canHold: nat -> bool)
    requires Tracks(v, frames + [frame]) && buf == Painted(frames, maxLen)
    ensures !Unplaceable(frame, |buf|, maxLen, canHold) ==>
              (Stops(v, frame, NextWindow(buf, frame, maxLen), maxLen) <==> Sated(frames + [frame], maxLen))
    ensures Progresses(v, frame, buf, maxLen) <==> Gains(frames, frame, maxLen)
    ensures maxLen > 0 && frame.complete ==> Stops(v, frame, NextWindow(buf, frame, maxLen), maxLen)
  {
    hide Painted, NextWindow, Pages, PagesInOrder, Coherent, Full, Assembled;
    if v.slots.Some? {
      Completion(v.slots.value, frames + [frame]);
    }
    if !Unplaceable(frame, |buf|, maxLen, canHold) {
      NextPainted(frames, frame, maxLen);
    }
  }

  /** `OnFrame` on the reader's whole state. */
  method Turn(frame: RangeFrame, t: Trackers, buf: Bytes, byteFrontier: nat, maxLen: nat, canHold: nat -> bool,
              ghost frames: seq<RangeFrame>, ghost h: Answer)
    returns (r: Result<bool, DownloadError>, now: Trackers, window: Bytes, frontier: nat)
    requires Reading(t.Held(), buf, frames, maxLen) && byteFrontier == |buf|
    modifies t.Parts()
    ensures fresh(now.Parts() - t.Parts())
    ensures r.Ok? ==> Reading(now.Held(), window, frames + [frame], maxLen) && frontier == |window|
    ensures r == Ok(false) ==>
              && |window| + PlacedPages(frames + [frame]) > |buf| + PlacedPages(frames)
              && (maxLen > 0 ==> !frame.complete)
    ensures r.Err? ==> r.error.IsRecoverable()
    ensures r.Err? <==> Refused(frames, frame, maxLen, canHold)
    ensures r.Ok? ==> (r.value <==> Sated(frames + [frame], maxLen))
    ensures Due(h, frames, frame, buf, maxLen) && Roomy(canHold) ==>
              && r.Ok? && OnCourse(h, frames + [frame], window, maxLen)
              && (r.value <==> (frame.complete && maxLen > 0) || !h.Waiting(|frames| + 1, maxLen))
  {
    ghost var due := Due(h, frames, frame, buf, maxLen);
    if due {
      HonestStart(h, frames, frame, buf, maxLen);
    }
    hide InShape, Pages, Painted, NextWindow, Due, OnCourse, Coherent, PlacedPages, Sated, Gains, Stops, Progresses;
    r, now, window, frontier := OnFrame(frame, t, buf, byteFrontier, maxLen, canHold, frames);
    if due && Tracks(now.Held(), frames + [frame]) {
      HonestVerdict(h, now.Held(), frames, frame, buf, maxLen);
    }
    if InShape(frames, frame) {
      Judged(now.Held(), frames, frame, buf, maxLen, canHold);
    }
    hide Tracks;
    if r.Ok? {
      Advances(now.Held(), buf, frames, frame, maxLen, r.value);
    }
  }

  /** `Turn` on the next frame of the stream. */
  method Proceed(stream: nat -> Wire, frame: RangeFrame, t: Trackers, buf: Bytes, byteFrontier: nat, maxLen: nat,
                 canHold: nat -> bool, ghost frames: seq<RangeFrame>, ghost served: bool, ghost h: Answer)
    returns (r: Result<bool, DownloadError>, now: Trackers, window: Bytes, frontier: nat)
    requires Ongoing(stream, maxLen, served, h, t.Held(), frames, buf) && byteFrontier == |buf|
    requires Wanting(frames, maxLen, canHold)
    requires stream(|frames|) == Framed(frame) && (served ==> Roomy(canHold) && h.SentOn(stream))
    modifies t.Parts()
    ensures fresh(now.Parts() - t.Parts())
    ensures Declared(frames + [frame]) == if |frames| == 0 then FirstMeta(frame) else Declared(frames)
    ensures r == Ok(false) ==>
              && Ongoing(stream, maxLen, served, h, now.Held(), frames + [frame], window)
              && frontier == |window| && Left(maxLen, frames + [frame], window) < Left(maxLen, frames, buf)
              && Wanting(frames + [frame], maxLen, canHold)
    ensures r != Ok(false) ==> Halts(stream, maxLen, canHold, |frames| + 1, frames + [frame], r.Ok?)
    ensures r != Ok(false) ==>
              var meta := if r.Ok? then Ok(Declared(frames + [frame])) else Err(r.error);
              Ended(stream, maxLen, served, h, now.Held(), frames + [frame], window, meta)
  {
    Expect(stream, maxLen, served, h, t.Held(), frames, buf, frame);
    hide *;
    r, now, window, frontier := Turn(frame, t, buf, byteFrontier, maxLen, canHold, frames, h);
    HaltsHere(stream, maxLen, canHold, frames, frame);
    Conclude(stream, maxLen, served, h, now.Held(), frames, buf, frame, window, r);
  }

  /** The loop's body: reads the next item of the stream and acts on it. */
  method Next(stream: nat -> Wire, n: nat, meta: RangeMeta, t: Trackers, buf: Bytes, byteFrontier: nat, maxLen: nat,
              canHold: nat -> bool, ghost frames: seq<RangeFrame>, ghost served: bool, ghost h: Answer)
    returns (more: bool, r: Result<RangeMeta, DownloadError>, now: Trackers, window: Bytes, frontier: nat,
             ghost taken: seq<RangeFrame>)
    requires Ongoing(stream, maxLen, served, h, t.Held(), frames, buf)
    requires n == |frames| && byteFrontier == |buf| && meta == Declared(frames) && Wanting(frames, maxLen, canHold)
    requires served ==> Roomy(canHold) && h.SentOn(stream)
    modifies t.Parts()
    ensures fresh(now.Parts() - t.Parts())
    ensures more ==>
              && Ongoing(stream, maxLen, served, h, now.Held(), taken, window)
              && |taken| == n + 1 && frontier == |window| && r == Ok(Declared(taken)) && Wanting(taken, maxLen, canHold)
              && Left(maxLen, taken, window) < Left(maxLen, frames, buf)
    ensures !more ==> Ended(stream, maxLen, served, h, now.Held(), taken, window, r)
    ensures !more ==> Halts(stream, maxLen, canHold, n + 1, taken, r.Ok?)
  {
    hide *;
    Ahead(stream, maxLen, served, h, t.Held(), frames, buf);
    HaltsBetween(stream, maxLen, canHold, frames);
    more, r, now, window, frontier, taken := false, Ok(meta), t, buf, byteFrontier, frames;
    var wire := stream(n);
    match wire {
      case Broken => r := Err(Transport);
      case EndOfStream =>
      case Framed(frame) =>
        var stop;
        taken := frames + [frame];
        stop, now, window, frontier :=
          Proceed(stream, frame, t, buf, byteFrontier, maxLen, canHold, frames, served, h);
        if stop.Err? {
          r := Err(stop.error);
        } else {
          more, r := !stop.value, Ok(if n == 0 then FirstMeta(frame) else meta);
        }
    }
  }

  /** Where reading starts. */
  lemma Begins(stream: nat -> Wire, maxLen: nat, canHold: nat -> bool, h: Answer)
    ensures Ongoing(stream, maxLen, Served(h, stream, maxLen, canHold), h, View(None, None), [], [])
    ensures Wanting([], maxLen, canHold) && Declared([]) == NO_META
    ensures Trackers(None, None).Parts() == {} && Trackers(None, None).Held() == View(None, None)
    ensures Served(h, stream, maxLen, canHold) ==> Roomy(canHold) && h.SentOn(stream)
  {
    hide Roomy, Answer.SentOn;
    assert h.Conforms(maxLen) ==> Data(h.frames[..0]) == [];
  }

  /** Reads frames until the window and the prologue are complete, or the stream ends. */
  method ReadFrames(stream: nat -> Wire, maxLen: nat, canHold: nat -> bool, ghost h: Answer)
    returns (r: Result<RangeMeta, DownloadError>, t: Trackers, buf: Bytes, n: nat, ghost frames: seq<RangeFrame>)
    ensures Ended(stream, maxLen, Served(h, stream, maxLen, canHold), h, t.Held(), frames, buf, r)
    ensures Halts(stream, maxLen, canHold, n, frames, r.Ok?)
  {
    hide *;
    r, buf, t, n, frames := Ok(NO_META), [], Trackers(None, None), 0, [];
    var byteFrontier, more := 0, true;
    ghost var served := Served(h, stream, maxLen, canHold);
    Begins(stream, maxLen, canHold, h);
    while more
      invariant fresh(t.Parts())
      invariant more ==>
                  && Ongoing(stream, maxLen, served, h, t.Held(), frames, buf)
                  && n == |frames| && byteFrontier == |buf| && r == Ok(Declared(frames))
                  && Wanting(frames, maxLen, canHold)
      invariant !more ==>
                  && Ended(stream, maxLen, served, h, t.Held(), frames, buf, r)
                  && Halts(stream, maxLen, canHold, n, frames, r.Ok?)
      decreases more, Left(maxLen, frames, buf)
    {
      more, r, t, buf, byteFrontier, frames :=
        Next(stream, n, r.value, t, buf, byteFrontier, maxLen, canHold, frames, served, h);
      n := n + 1;
    }
  }

  /** Once all pages came one after another, the next frame of a coherent answer carries none. */
  lemma NoPageAfterLast(frames: seq<RangeFrame>, f: RangeFrame)
    requires frames != [] && frames[0].Paged() && LayoutWhole(frames) && Coherent(frames) && InShape(frames, f)
    ensures LayoutWhole(frames + [f]) && Coherent(frames + [f])
  {
    OneMoreFrame(frames, f);
    if !InStep(frames) {
      OutOfStep(frames);
    }
    PagesInOrderStep(frames, f);
  }

  lemma {:induction false} StaysWhole(frames: seq<RangeFrame>, k: nat)
    requires 0 < k <= |frames| && frames[0].Paged() && LayoutWhole(frames[..k]) && Coherent(frames[..k])
    requires forall i :: 0 <= i < |frames| ==> InShape(frames[..i], frames[i])
    ensures LayoutWhole(frames)
    decreases |frames| - k
  {
    hide LayoutWhole, Coherent, InShape;
    if k == |frames| {
      assert frames[..k] == frames;
    } else {
      NoPageAfterLast(frames[..k], frames[k]);
      assert frames[..k] + [frames[k]] == frames[..k + 1];
      StaysWhole(frames, k + 1);
    }
  }

  /** The stream carries the answer, and the reader cannot miss where it ends. */
  ghost predicate Closed(h: Answer, stream: nat -> Wire, maxLen: nat) {
    h.SentOn(stream) && (maxLen > 0 || stream(|h.frames|) == EndOfStream)
  }

  lemma SentPrefix(h: Answer, stream: nat -> Wire, frames: seq<RangeFrame>, maxLen: nat)
    requires h.frames != [] && Closed(h, stream, maxLen) && Spent(stream, maxLen, frames)
    requires |frames| == 0 ==> !stream(0).Framed?
    ensures 0 < |frames| <= |h.frames| && frames == h.frames[..|frames|]
  {
    hide PlacedPages, Capacity;
  }

  /** What a reader accepts of a coherent answer has the whole layout, so the answer had it. */
  lemma WholeIfAccepted(h: Answer, stream: nat -> Wire, frames: seq<RangeFrame>, maxLen: nat)
    requires h.Streams(maxLen) && Closed(h, stream, maxLen) && Spent(stream, maxLen, frames)
    requires (|frames| == 0 ==> !stream(0).Framed?) && LayoutWhole(frames) && Coherent(frames)
    ensures LayoutWhole(h.frames)
  {
    hide InShape, LayoutWhole, Coherent, Data, Pages;
    SentPrefix(h, stream, frames, maxLen);
    if h.frames[0].Paged() {
      forall i | 0 <= i < |h.frames| ensures InShape(h.frames[..i], h.frames[i]) {
        assert h.Faithful(i, maxLen);
      }
      StaysWhole(h.frames, |frames|);
    } else {
      Unpaged(h.frames);
    }
  }

  lemma Unpaged(frames: seq<RangeFrame>)
    requires frames != [] && !frames[0].Paged()
    ensures LayoutWhole(frames) && Layout(frames) == frames[0].chunkLens
  {
  }

  /** Reassembles a frame stream into one window of at most `maxLen` bytes and the shape it declared, reading `n` items
      of it. The stream is arbitrary and need not end; `h` is a faithful answer it might be carrying. */
  method AssembleRangeStream(stream: nat -> Wire, maxLen: nat, canHold: nat -> bool, ghost h: Answer)
    returns (r: Result<(Bytes, RangeMeta), DownloadError>, n: nat, ghost frames: seq<RangeFrame>)
    // every frame but the last brought a byte, or one of the pages the first frame declares
    ensures Spent(stream, maxLen, frames)
    ensures 0 < n && |frames| <= n <= |frames| + 1
    // reading ends where the stream is broken, ends, offends or has brought all; it is accepted exactly if it did not
    // break or offend and the layout its first frame declares came whole
    ensures exists ok :: Halts(stream, maxLen, canHold, n, frames, ok) && (r.Ok? <==> ok && LayoutWhole(frames))
    ensures r.Ok? ==> Coherent(frames) && r.value == (Painted(frames, maxLen), MetaOf(frames))
    ensures r.Ok? ==> LayoutWhole(frames)
    ensures r.Err? ==> r.error.IsRecoverable()
    // a faithful answer is accepted exactly if the layout its first frame declares came whole
    ensures h.Streams(maxLen) && Closed(h, stream, maxLen) && Roomy(canHold) ==> (r.Ok? <==> LayoutWhole(h.frames))
    ensures h.Conforms(maxLen) && h.SentOn(stream) && Roomy(canHold) ==>
              && r.Ok? && r.value.0 == h.content[..Min(maxLen, |h.content|)]
              && r.value.1.chunkLens == Layout(h.frames)
  {
    var read, t, buf;
    read, t, buf, n, frames := ReadFrames(stream, maxLen, canHold, h);
    if read.Err? {
      return Err(read.error), n, frames;
    }
    var meta := read.value;
    if Served(h, stream, maxLen, canHold) {
      HonestWindow(h, frames, buf, maxLen);
      HonestEnd(h, t.Held(), frames, buf, maxLen);
    }
    hide OnCourse, Answer.Streams, Answer.SentOn, Answer.Waiting, Spent, Wanting, Refused, Sated;
    if t.assembler.Some? {
      Completion(t.assembler.value.slots, frames);
      var full := t.assembler.value.IntoChunkLens();
      if full.None? {
        return Err(PagedPrologueUnsupported), n, frames;
      }
      assert full.value == Pages(frames);
      meta := meta.(chunkLens := full);
    }
    if h.Streams(maxLen) && Closed(h, stream, maxLen) {
      WholeIfAccepted(h, stream, frames, maxLen);
    }
    return Ok((buf, meta)), n, frames;
  }
}
