/** Whole runs of the resource scheduler: what its guarantees assume can be met, and what they then give. */
module SchedulerWitness {
  import opened Basics
  import opened Plan
  import opened PlanProperties
  import opened Verify
  import opened Ledger
  import opened Sinks
  import opened Progress
  import opened Backoff
  import opened Scheduler

  const HOLDER: Peer := "holder"

  const SETTINGS := Config(1024, 4, 2, 10, 1, U64_MAX, true, false)

  /** The calls at which the selector has no one to offer, the holder being backed off. */
  const OUTAGE: set<nat> := {0, 1, 2, 3, 4, 5, 6, 7, 8}

  /** The calls at which the holder times out, and a turn may wake up to the end of its backoff. */
  const SLIPS: set<nat> := {0, 1, 2, 3, 4, 5, 6, 7, 8, 9}

  /** What the holder has for range `i`. */
  function Piece(content: Bytes, ranges: seq<Range>, i: nat): Bytes {
    if i < |ranges| && ranges[i].offset + ranges[i].length <= |content|
    then content[ranges[i].offset..ranges[i].offset + ranges[i].length]
    else []
  }

  const UNSTATED := RangeMeta(None, None, None, None, None, None)

  function Reply(content: Bytes, ranges: seq<Range>, t: nat, p: Peer, i: nat): Result<FetchedRange, DownloadError> {
    if t in SLIPS || p != HOLDER then Err(Timeout) else Ok(FetchedRange(UNSTATED, Piece(content, ranges, i)))
  }

  /** A holder that is backed off at first serves `content`, chunked as `lens` says, later; the chain knows
      `genuine`. */
  function Network(content: Bytes, lens: seq<nat>, ranges: seq<Range>, genuine: Bytes): World {
    World(
      (b: Bytes) => if b == genuine then "genuine" else "other",
      (leaf, _, _) => leaf == "genuine",
      true,
      None,
      _ => Ok([HOLDER]),
      (_, _) => true,
      (_, _) => Ok(FetchedRange(UNSTATED.(totalLength := Some(|content|), chunkLens := Some(lens)), [])),
      (t: nat, p: Peer, i: nat) => Reply(content, ranges, t, p, i),
      t => SelectPlan([], if t in OUTAGE then [] else [HOLDER]),
      t => if t in SLIPS then BackoffElapsed else Completion(0),
      _ => 0)
  }

  /** The run finds the holder, and its layout is adopted. */
  lemma NetworkIsFound(content: Bytes, lens: seq<nat>, ranges: seq<Range>, genuine: Bytes, t: nat)
    requires Offset(lens, |lens|) == |content| <= U64_MAX && |lens| <= MAX_RESOURCE_CHUNK_COUNT
    ensures var w := Network(content, lens, ranges, genuine);
            && w.downloadable && HoldersAt(w, t) == [HOLDER] && w.ClockRuns() && w.clock(0) == 0
            && SeedAt(w, U64_MAX, t) == Some(UNSTATED.(totalLength := Some(|content|), chunkLens := Some(lens)))
  {
    var w := Network(content, lens, ranges, genuine);
    assert Confirmed(w, [HOLDER], t + 1) == [HOLDER] by {
      assert [HOLDER][..0] == [] && Confirmed(w, [], t + 1) == [];
    }
    hide Confirmed, Offset;
  }

  lemma NetworkObliges(content: Bytes, lens: seq<nat>, ranges: seq<Range>, genuine: Bytes, c: ResourceCommitment,
                       spared: set<nat>)
    requires PlannedFrom(c, ranges) && ranges != [] && c.totalLength == |content|
    ensures Obliging(Network(content, lens, ranges, genuine), SETTINGS, c, ranges, [HOLDER], spared, SLIPS)
  {
    hide PlannedFrom, Honours, Sticks, Network;
    var w := Network(content, lens, ranges, genuine);
    forall t: nat, p: Peer, i: nat | p in [HOLDER] && i < |ranges| ensures Honours(w, c, ranges, p, i, t, t in SLIPS) {
      HolderHonours(content, lens, ranges, genuine, c, i, t);
    }
    forall t: nat
      ensures Sticks(w.select(t), [HOLDER]) && (w.select(t).ordered != [] || (t + 1 in SLIPS && w.locate(t + 1).Ok?))
      ensures w.event(t).Completion? || (t in SLIPS && !w.event(t).Pause? && !w.event(t).Cancel?)
    {
      Offering(content, lens, ranges, genuine, t);
    }
  }

  lemma Offering(content: Bytes, lens: seq<nat>, ranges: seq<Range>, genuine: Bytes, t: nat)
    ensures var w := Network(content, lens, ranges, genuine);
            && Sticks(w.select(t), [HOLDER]) && w.locate(t + 1).Ok? && (w.select(t).ordered != [] || t + 1 in SLIPS)
            && (w.event(t).Completion? || (t in SLIPS && !w.event(t).Pause? && !w.event(t).Cancel?))
  {
    hide Reply;
  }

  lemma HolderHonours(content: Bytes, lens: seq<nat>, ranges: seq<Range>, genuine: Bytes, c: ResourceCommitment, i: nat,
                      t: nat)
    requires PlannedFrom(c, ranges) && i < |ranges| && c.totalLength == |content|
    ensures Honours(Network(content, lens, ranges, genuine), c, ranges, HOLDER, i, t, t in SLIPS)
  {
    PlannedRange(c, ranges, i);
    PlannedRangeCheck(c, ranges, i, Piece(content, ranges, i));
    hide PlannedFrom, VerifyRange, Lengths, Offset;
  }

  /** What a logged fetch delivered is what the holder has. */
  lemma DeliveredPiece(content: Bytes, lens: seq<nat>, ranges: seq<Range>, genuine: Bytes, c: ResourceCommitment,
                       log: seq<Fetching>, since: nat, now: nat, i: nat, part: Bytes)
    requires Network(content, lens, ranges, genuine).Logged(log, since, now) && Delivered(c, log, i, part)
    ensures part == Piece(content, ranges, i)
  {
    var k :| 0 <= k < |log| && log[k].index == i && log[k].reply.Ok? && log[k].reply.value.bytes == part;
    assert log[k].known && log[k].reply == Network(content, lens, ranges, genuine).fetch(log[k].at, log[k].peer, i);
    assert log[k].reply == Reply(content, ranges, log[k].at, log[k].peer, i);
    hide Piece, Network;
  }

  lemma PieceFits(content: Bytes, ranges: seq<Range>, c: ResourceCommitment, blob: Bytes, i: nat)
    requires PlannedFrom(c, ranges) && c.totalLength == |content| == |blob| && i < |ranges|
    requires ranges[i].offset + ranges[i].length <= |blob| ==>
               blob[ranges[i].offset..ranges[i].offset + ranges[i].length] == Piece(content, ranges, i)
    ensures SamePiece(content, blob, ranges, i)
  {
    PlannedRange(c, ranges, i);
    OffsetStep(Lengths(ranges), i);
    hide PlannedFrom, Offset;
  }

  /** `blob` agrees with `content` on range `i`, which starts where the ranges before it end. */
  predicate SamePiece(content: Bytes, blob: Bytes, ranges: seq<Range>, i: nat)
    requires i < |ranges|
  {
    var (from, to) := (Offset(Lengths(ranges), i), Offset(Lengths(ranges), i + 1));
    to <= |blob| == |content| && from <= to && blob[from..to] == content[from..to]
  }

  lemma {:induction false} SamePieces(content: Bytes, blob: Bytes, ranges: seq<Range>, k: nat)
    requires k <= |ranges| && |content| == |blob|
    requires forall i: nat :: i < |ranges| ==> SamePiece(content, blob, ranges, i)
    ensures Offset(Lengths(ranges), k) <= |blob|
    ensures blob[..Offset(Lengths(ranges), k)] == content[..Offset(Lengths(ranges), k)]
  {
    if k == 0 {
      assert Offset(Lengths(ranges), 0) == 0;
    } else {
      SamePieces(content, blob, ranges, k - 1);
      assert SamePiece(content, blob, ranges, k - 1);
      Joins(content, blob, Offset(Lengths(ranges), k - 1), Offset(Lengths(ranges), k));
    }
    hide Offset, Lengths;
  }

  lemma Joins(a: Bytes, b: Bytes, from: nat, to: nat)
    requires from <= to <= |a| == |b| && a[..from] == b[..from] && a[from..to] == b[from..to]
    ensures a[..to] == b[..to]
  {
    assert a[..to] == a[..from] + a[from..to] && b[..to] == b[..from] + b[from..to];
  }

  /** The job planned as the holder did, so it must come to its end. */
  lemma MustComeToEnd(job: Job, content: Bytes, lens: seq<nat>, ranges: seq<Range>, genuine: Bytes)
    requires job.cfg == SETTINGS && job.world == Network(content, lens, ranges, genuine)
    requires job.sink.Works() && job.store.Keeps() && job.Planned() && HoldersAt(job.world, 0) == [HOLDER]
    requires lens != [] && Tiles(ranges, lens) && Packed(ranges, lens, Max(SETTINGS.window, 1))
    requires job.commitment.value.layout.chunkLens == lens && job.commitment.value.totalLength == |content|
    ensures job.ranges == ranges && PlannedFrom(job.commitment.value, ranges)
    ensures job.MustEnd(0, |ranges| + |SLIPS| + 1, SLIPS)
  {
    PlanIsUnique(job.ranges, ranges, lens, Max(SETTINGS.window, 1));
    assert ranges != [];
    hide Obliging, PlannedFrom, Packed, Tiles, Network;
    NetworkObliges(content, lens, ranges, genuine, job.commitment.value, job.resumed);
  }

  /** What it assembled is the holder's content, and refused exactly if the chain knows something else. */
  lemma Assembles(job: Job, content: Bytes, lens: seq<nat>, ranges: seq<Range>, genuine: Bytes, blob: Bytes)
    requires job.cfg == SETTINGS && job.world == Network(content, lens, ranges, genuine) && job.ranges == ranges
    requires job.commitment.Some? && job.commitment.value.totalLength == |content|
    requires job.Made(job.commitment.value, blob) && job.resumed == {}
    ensures blob == content && (job.Refused(blob) <==> content != genuine)
  {
    var c := job.commitment.value;
    PlannedTotal(c, ranges);
    MadeParts(job, c, blob);
    Verdict(content, lens, ranges, genuine);
    hide PlannedFrom, Delivered, World.Logged, SamePiece, Offset, Network, Job.Made, Piece;
    forall i: nat | i < |ranges| ensures SamePiece(content, blob, ranges, i) {
      assert PartDelivered(c, job.fetches, ranges[i], i, blob);
      var part := blob[ranges[i].offset..ranges[i].offset + ranges[i].length];
      DeliveredPiece(content, lens, ranges, genuine, c, job.fetches, job.since, job.tick, i, part);
      PieceFits(content, ranges, c, blob, i);
    }
    AllSame(content, blob, ranges);
  }

  lemma AllSame(content: Bytes, blob: Bytes, ranges: seq<Range>)
    requires |content| == |blob| == Offset(Lengths(ranges), |ranges|)
    requires forall i: nat :: i < |ranges| ==> SamePiece(content, blob, ranges, i)
    ensures blob == content
  {
    hide SamePiece, Offset, Lengths;
    SamePieces(content, blob, ranges, |ranges|);
    assert blob[..|blob|] == blob && content[..|content|] == content;
  }

  lemma MadeParts(job: Job, c: ResourceCommitment, blob: Bytes)
    requires job.Made(c, blob) && job.resumed == {}
    ensures |blob| == c.totalLength && PlannedFrom(c, job.ranges)
    ensures job.world.Logged(job.fetches, job.since, job.tick)
    ensures forall i: nat :: i < |job.ranges| ==> PartDelivered(c, job.fetches, job.ranges[i], i, blob)
  {
    hide PlannedFrom, PartDelivered, World.Logged;
  }

  lemma Verdict(content: Bytes, lens: seq<nat>, ranges: seq<Range>, genuine: Bytes)
    ensures var w := Network(content, lens, ranges, genuine);
            forall proof: Option<string>, root: Option<string> ::
              w.proof(w.sha(content), proof, root) <==> content == genuine
  {
  }

  lemma Adopted(c: Option<ResourceCommitment>, total: nat, lens: seq<nat>)
    requires Seeded(c, Some(UNSTATED.(totalLength := Some(total), chunkLens := Some(lens))))
    ensures c.Some? && c.value.layout.chunkLens == lens && c.value.totalLength == total
  {
  }

  /** No failure at time 0 lets the backoff of one nanosecond end. */
  lemma {:induction false} StaysBackedOff(start: SourceHealth, history: seq<Attempt>)
    requires start.backoffUntil == Some(1) && forall k :: 0 <= k < |history| ==> history[k] == Failure(0)
    ensures After(start, history, 1, 1).backoffUntil == Some(1)
  {
    if history != [] {
      StaysBackedOff(start, history[..|history| - 1]);
      BackoffIsOne(Min(After(start, history[..|history| - 1], 1, 1).failures + 1, U32_MAX));
    }
  }

  lemma BackoffIsOne(failures: nat)
    ensures BackoffFor(1, 1, failures) == 1
  {
    Pow2Monotone(0, Min(if failures == 0 then 0 else failures - 1, 16));
  }

  lemma {:induction false} AllFail(w: World, c: ResourceCommitment, ranges: seq<Range>, log: seq<Fetching>, p: Peer)
    requires forall k :: 0 <= k < |log| ==> OutcomeOf(w, c, ranges, log[k]) == Failure(0)
    ensures forall k :: 0 <= k < |Outcomes(w, c, ranges, log, p)| ==> Outcomes(w, c, ranges, log, p)[k] == Failure(0)
  {
    hide OutcomeOf;
    if log != [] {
      AllFail(w, c, ranges, log[..|log| - 1], p);
    }
  }

  /** While no one is offered the holder's backoff has not ended, so the job waits for it. */
  lemma NeverGivesUp(job: Job, content: Bytes, lens: seq<nat>, ranges: seq<Range>, genuine: Bytes)
    requires job.world == Network(content, lens, ranges, genuine) && job.tracker.base == job.tracker.max == 1
    requires HealthIn(job.records, HOLDER).backoffUntil == Some(1)
    ensures !job.GaveUp([HOLDER], SLIPS)
  {
    forall t: nat ensures !job.GivenUp([HOLDER], SLIPS, t) {
      if job.GivenUp([HOLDER], SLIPS, t) {
        Waits(job, content, lens, ranges, genuine, t);
      }
    }
    hide Job.GivenUp, Network;
  }

  /** A job that found no one offered as call `t` knows its holder to be backed off. */
  lemma Waits(job: Job, content: Bytes, lens: seq<nat>, ranges: seq<Range>, genuine: Bytes, t: nat)
    requires job.world == Network(content, lens, ranges, genuine) && job.tracker.base == job.tracker.max == 1
    requires HealthIn(job.records, HOLDER).backoffUntil == Some(1)
    requires job.Healthy() && job.world.select(t).ordered == [] && HOLDER in job.providers
    requires forall k :: 0 <= k < |job.fetches| ==> job.fetches[k].at < t
    ensures !job.NobodyWaits()
  {
    job.Parts();
    var (w, c, log) := (job.world, job.commitment.value, job.fetches);
    Failures(w, c, job.ranges, log, content, lens, ranges, genuine, t, job.since, job.tick, job.tracker.latest);
    AllFail(w, c, job.ranges, log, HOLDER);
    StaysBackedOff(HealthIn(job.records, HOLDER), Outcomes(w, c, job.ranges, log, HOLDER));
    assert HealthIn(job.tracker.health, HOLDER).backoffUntil == Some(1);
    assert !job.tracker.IsAvailable(HOLDER, w.clock(job.tick));
    hide Job.Healthy, Sane, After, Outcomes;
  }

  lemma Failures(w: World, c: ResourceCommitment, planned: seq<Range>, log: seq<Fetching>, content: Bytes,
                 lens: seq<nat>, ranges: seq<Range>, genuine: Bytes, t: nat, since: nat, now: nat, latest: nat)
    requires w == Network(content, lens, ranges, genuine) && t in OUTAGE && Timely(w, since, now, latest, log)
    requires forall k :: 0 <= k < |log| ==> log[k].at < t
    ensures forall k :: 0 <= k < |log| ==> OutcomeOf(w, c, planned, log[k]) == Failure(0)
  {
    forall k | 0 <= k < |log| ensures OutcomeOf(w, c, planned, log[k]) == Failure(0) {
      assert log[k].at in SLIPS;
      assert log[k].reply.Err?;
    }
  }

  /** A tracker under which one failure backs a holder off until time 1, and which has seen that failure. */
  method FailedOnce() returns (tracker: SourceTracker)
    ensures fresh(tracker) && tracker.Valid() && tracker.latest == 0 && tracker.base == tracker.max == 1
    ensures HealthIn(tracker.health, HOLDER).backoffUntil == Some(1)
  {
    tracker := new SourceTracker(1, 1);
    tracker.RecordFailure(HOLDER, 0);
    BackoffIsOne(1);
  }

  /** From a new job, in a world where the holder recovers from its outage: any content, however it is chunked, is
      promoted if it is what the chain knows, and refused if it is not. */
  method PromotesOrRefuses(content: Bytes, lens: seq<nat>, genuine: Bytes)
    returns (sink: Sink, r: Option<Result<nat, DownloadError>>)
    requires lens != [] && |lens| <= MAX_RESOURCE_CHUNK_COUNT && Offset(lens, |lens|) == |content| <= U64_MAX
    ensures fresh(sink) && r.Some?
    ensures content == genuine ==> sink.finalized && sink.buf == content && r.value == Ok(|content|)
    ensures content != genuine ==> !sink.finalized && r.value.Err?
  {
    var layout := TryNew(lens);
    var ranges := PlanRanges(layout.value, SETTINGS.window);
    sink := new Sink(true, true, _ => false, (_, staged) => staged, []);
    var store := new StateStore((_, _) => false, _ => 0, None, []);
    var tracker := FailedOnce();
    NetworkIsFound(content, lens, ranges, genuine, 0);
    assert sink.Works() && sink.Undisturbed() && store.Keeps() && SETTINGS.maxResourceSize == U64_MAX;
    hide *;
    var job := new Job(Network(content, lens, ranges, genuine), SETTINGS, sink, store, tracker);
    ghost var blob;
    r, blob := job.Run(|ranges| + |SLIPS| + 1, SLIPS);
    Adopted(job.commitment, |content|, lens);
    MustComeToEnd(job, content, lens, ranges, genuine);
    NeverGivesUp(job, content, lens, ranges, genuine);
    Assembles(job, content, lens, ranges, genuine, blob);
  }

  /** A holder whose backoff ends at time 1, in a world where that time passes between two looks at the clock. */
  function Jumpy(content: Bytes): World {
    World(
      (b: Bytes) => "leaf",
      (leaf, _, _) => true,
      true,
      None,
      _ => Ok([HOLDER]),
      (_, _) => true,
      (_, _) => Err(Transport),
      (_, _, _) => Ok(FetchedRange(UNSTATED, content)),
      t => SelectPlan([], if t == 2 then [] else [HOLDER]),
      _ => BackoffElapsed,
      t => if t <= 2 then 0 else 5)
  }

  lemma JumpyIs(content: Bytes)
    ensures var w := Jumpy(content);
            && w.downloadable && w.ClockRuns() && w.clock(0) == w.clock(2) == 0 && NamesNobody(w.select(2))
            && HoldersAt(w, 0) == [HOLDER] && w.locate(0) == Ok([HOLDER]) && forall t: nat :: t > 2 ==> w.clock(t) == 5
  {
    var w := Jumpy(content);
    assert Confirmed(w, [HOLDER], 1) == [HOLDER] by {
      assert [HOLDER][..0] == [] && Confirmed(w, [], 1) == [];
    }
    hide Confirmed;
  }

  /** A job about to resume from a checkpoint of one chunk, its only holder backed off until time 1. */
  method ResumableJob(content: Bytes) returns (job: Job)
    requires |content| <= U64_MAX
    ensures fresh(job) && fresh(job.sink) && fresh(job.store) && fresh(job.tracker)
    ensures job.world == Jumpy(content) && job.cfg.maxRelocateAttempts == 0 && job.store.Keeps() && job.tick == 0
    ensures job.commitment.Some? && job.commitment.value.Valid() && job.resume.doneRanges == {}
    ensures job.tracker.Valid() && job.tracker.latest == 0
    ensures job.totalFailures == 0 && job.books.issued == 0 && !job.paused && job.relocateAttempts == 0
    ensures forall now: nat :: job.tracker.IsAvailable(HOLDER, now) <==> now >= 1
  {
    var sink := new Sink(true, true, _ => false, (_, staged) => staged, []);
    var store := new StateStore((_, _) => false, _ => 0, None, []);
    var tracker := FailedOnce();
    job := new Job(Jumpy(content), SETTINGS.(maxRelocateAttempts := 0), sink, store, tracker);
    var state := DownloadState(|content|, [|content|], None, None, {});
    assert job.Resumable(state) by {
      assert Offset([|content|], 1) == Offset([|content|], 0) + |content|;
    }
    hide Jumpy, Offset;
    job.ResumeFrom(state);
  }

  /** A job gives up although its only holder, which would serve every range, has just become usable: it finds the
      holder backed off as it assigns, and no holder backed off when it asks how long to wait. */
  method GivesUpOnUsableHolder(content: Bytes) returns (job: Job, r: Option<Result<(), DownloadError>>)
    requires |content| <= U64_MAX
    ensures r.Some? && r.value.Err? && HOLDER in job.providers && job.world == Jumpy(content)
    ensures forall t: nat :: t > 2 ==> job.tracker.IsAvailable(HOLDER, job.world.clock(t))
  {
    hide *;
    JumpyIs(content);
    job := ResumableJob(content);
    var begun := job.Begin();
    Unstarted(job);
    r := job.Turn([], {});
    assert job.providers[0] == HOLDER;
    NooneWaits(job);
  }

  /** Nothing is done yet. */
  lemma Unstarted(job: Job)
    requires job.Healthy() && job.books.fed.Keys == {} && job.books.failed == 0
    ensures !AllDone(job.books.state) && job.totalFailures <= Budget(|job.ranges|, job.cfg.maxRangeAttempts)
    ensures Lenient(job.books.failed, |job.books.lens|, job.cfg.maxRangeAttempts)
  {
    if job.books.lens != [] {
      FedCount(job.books, Limits(job.cfg));
    }
    assert |job.books.state| == |job.books.lens|;
    FrugalStart(|job.books.lens|, job.cfg.maxRangeAttempts);
    hide Balanced, Sourced, PlannedFrom;
  }

  lemma NooneWaits(job: Job)
    requires forall now: nat :: job.tracker.IsAvailable(HOLDER, now) <==> now >= 1
    requires forall t: nat :: t > 2 ==> job.world.clock(t) == 5
    ensures forall t: nat :: t > 2 ==> job.tracker.IsAvailable(HOLDER, job.world.clock(t))
    ensures !job.SomeoneWaits([HOLDER], 3)
  {
    hide SourceTracker.IsAvailable;
  }
}
