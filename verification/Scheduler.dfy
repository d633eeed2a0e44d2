/** `Job` of `src/orchestrator.rs`: fetches one resource from many holders at once, over every schedule of events. */
module Scheduler {
  import opened Basics
  import opened Plan
  import opened PlanProperties
  import opened Verify
  import opened Hasher
  import opened Ledger
  import opened Sinks
  import opened Progress
  import opened Backoff

  datatype Config = Config(
    window: nat, maxConcurrency: nat, maxInflightPerSource: nat, maxRangeAttempts: nat, maxRelocateAttempts: nat,
    maxResourceSize: nat, verifyWholeResource: bool, refreshes: bool)

  function Limits(cfg: Config): Caps { Caps(cfg.maxConcurrency, cfg.maxInflightPerSource) }

  datatype FetchedRange = FetchedRange(meta: RangeMeta, bytes: Bytes)

  /** The fetch of range `index` from `peer` completed as call `at` with `reply`; a holder not `known` was not asked. */
  datatype Fetching = Fetching(
    at: nat, peer: Peer, index: nat, known: bool, reply: Result<FetchedRange, DownloadError>)

  /** A selector's answer: explicit pins, and holders in order of preference. */
  datatype SelectPlan = SelectPlan(assignments: seq<(nat, Peer)>, ordered: seq<Peer>)

  /** What the scheduler may wake up to. */
  datatype Event = Pause | Resume | Cancel | Completion(which: nat) | BackoffElapsed | RefreshDue

  /** Everything outside the job, as arbitrary functions of the call number. */
  datatype World = World(
    sha: HashFunction,
    proof: ProofVerifier,
    downloadable: bool,
    contentRoot: Option<string>,
    locate: nat -> Result<seq<Peer>, DownloadError>,
    available: (nat, Peer) -> bool,
    probe: (nat, Peer) -> Result<FetchedRange, DownloadError>,
    fetch: (nat, Peer, nat) -> Result<FetchedRange, DownloadError>,
    select: nat -> SelectPlan,
    event: nat -> Event,
    clock: nat -> nat)
  {
    /** Instants never step back. */
    ghost predicate ClockRuns() {
      forall s: nat, t: nat :: s <= t ==> clock(s) <= clock(t)
    }

    /** The log holds fetches made between calls `since` and `now`, in order, each with the reply it got. */
    ghost predicate Logged(log: seq<Fetching>, since: nat, now: nat) {
      && (forall k :: 0 <= k < |log| ==>
                        && since <= log[k].at < now
                        && log[k].reply == if log[k].known then fetch(log[k].at, log[k].peer, log[k].index)
                                           else Err(Transport))
      && (forall j, k :: 0 <= j < k < |log| ==> log[j].at < log[k].at)
    }
  }

  /** One of the logged fetches, of range `i`, brought exactly `bytes`, and said nothing that contradicts `c`. */
  ghost predicate Delivered(c: ResourceCommitment, log: seq<Fetching>, i: nat, bytes: Bytes) {
    exists k :: 0 <= k < |log| && log[k].index == i && log[k].reply.Ok? && log[k].reply.value.bytes == bytes
                && !Contradicts(c, log[k].reply.value.meta)
  }

  /** Of the checkpointed ranges, exactly those that `size` staged bytes reach are kept. */
  ghost predicate ReadBack(ranges: seq<Range>, done: set<nat>, size: nat, back: set<nat>) {
    forall i: nat :: i < |ranges| ==> (i in back <==> i in done && ranges[i].offset + ranges[i].length <= size)
  }

  /** What the fetch of `flight` is answered if it completes as call `t`; a holder no longer known is not asked. */
  function ReplyTo(w: World, flight: Flight, t: nat): Result<FetchedRange, DownloadError> {
    if flight.known then w.fetch(t, flight.peer, flight.index) else Err(Transport)
  }

  /** The log after that. */
  function Fetched(w: World, log: seq<Fetching>, flight: Flight, t: nat): seq<Fetching> {
    log + [Fetching(t, flight.peer, flight.index, flight.known, ReplyTo(w, flight, t))]
  }

  /** The located holders that confirm, each asked in turn from call `t` on. */
  function Confirmed(w: World, found: seq<Peer>, t: nat): (r: seq<Peer>)
    ensures forall p :: p in r <==> exists k: nat :: k < |found| && found[k] == p && w.available(t + k, p)
  {
    if found == [] then []
    else
      var k := |found| - 1;
      Confirmed(w, found[..k], t) + if w.available(t + k, found[k]) then [found[k]] else []
  }

  /** The confirmed holders, none if locating them as call `t` fails. */
  function HoldersAt(w: World, t: nat): seq<Peer> {
    if w.locate(t).Ok? then Confirmed(w, w.locate(t).value, t + 1) else []
  }

  /** The holders of `found` that are not in `known`, in order. */
  function Unknown(found: seq<Peer>, known: seq<Peer>): (r: seq<Peer>)
    ensures forall p :: p in r <==> p in found && p !in known
  {
    if found == [] then []
    else
      var k := |found| - 1;
      assert found == found[..k] + [found[k]];
      Unknown(found[..k], known) + if found[k] in known then [] else [found[k]]
  }

  method MergeUnknown(found: seq<Peer>, known: seq<Peer>) returns (merged: seq<Peer>, added: nat)
    ensures merged == known + Unknown(found, known) && added == |Unknown(found, known)|
  {
    merged, added := known, 0;
    for i := 0 to |found|
      invariant merged == known + Unknown(found[..i], known) && added == |Unknown(found[..i], known)|
    {
      assert found[..i + 1][..i] == found[..i];
      if found[i] !in known {
        merged, added := merged + [found[i]], added + 1;
      }
    }
    assert found[..|found|] == found;
  }

  /** One holder's declared metadata may become the layout: bound to the requested root, complete and consistent. */
  predicate Adoptable(meta: RangeMeta, root: Option<string>, maxResourceSize: nat) {
    && (root.Some? ==> meta.root == root)
    && meta.totalLength.Some? && meta.chunkLens.Some?
    && (meta.chunkCount.Some? ==> meta.chunkCount.value == |meta.chunkLens.value|)
    && meta.totalLength.value <= Min(maxResourceSize, U64_MAX)
    && |meta.chunkLens.value| <= MAX_RESOURCE_CHUNK_COUNT
    && Offset(meta.chunkLens.value, |meta.chunkLens.value|) == meta.totalLength.value
  }

  /** The first adoptable metadata that probing holders `i ..` in order, from call `t` on, brings. */
  function FirstSeed(w: World, maxResourceSize: nat, holders: seq<Peer>, i: nat, t: nat): Option<RangeMeta>
    decreases |holders| - i
  {
    if i >= |holders| then None
    else
      var fetched := w.probe(t, holders[i]);
      if fetched.Ok? && Adoptable(fetched.value.meta, w.contentRoot, maxResourceSize) then Some(fetched.value.meta)
      else FirstSeed(w, maxResourceSize, holders, i + 1, t + 1)
  }

  /** The metadata that a run begun as call `t` adopts, if it finds any. */
  function SeedAt(w: World, maxResourceSize: nat, t: nat): Option<RangeMeta> {
    if !w.downloadable || HoldersAt(w, t) == [] then None
    else FirstSeed(w, maxResourceSize, HoldersAt(w, t), 0, t + 1 + |w.locate(t).value|)
  }

  /** The commitment is the one `seed` states, if there is a seed. */
  ghost predicate Seeded(c: Option<ResourceCommitment>, seed: Option<RangeMeta>) {
    match seed
    case None => c.None?
    case Some(meta) =>
      && c.Some? && c.value.Valid() && Some(c.value.layout.chunkLens) == meta.chunkLens
      && Some(c.value.totalLength) == meta.totalLength
      && c.value.root == meta.root && c.value.inclusionProof == meta.inclusionProof
  }

  predicate UnderCap(load: map<Peer, nat>, cap: nat, peer: Peer) { LoadOf(load, peer) < cap }

  /** `x` is at place `k` and no entry before it is like it. */
  ghost predicate FirstPin(assignments: seq<(nat, Peer)>, i: nat, peer: Peer, k: nat) {
    k < |assignments| && assignments[k] == (i, peer) && forall j :: 0 <= j < k ==> assignments[j].0 != i
  }

  /** The first pin of range `i`. */
  function Pin(assignments: seq<(nat, Peer)>, i: nat): (r: Option<Peer>)
    ensures r.Some? ==> exists k: nat :: FirstPin(assignments, i, r.value, k)
    ensures r.None? ==> forall k :: 0 <= k < |assignments| ==> assignments[k].0 != i
  {
    if assignments == [] then None
    else if assignments[0].0 == i then
      assert FirstPin(assignments, i, assignments[0].1, 0);
      Some(assignments[0].1)
    else
      var rest := Pin(assignments[1..], i);
      assert forall k: nat :: rest.Some? && FirstPin(assignments[1..], i, rest.value, k) ==>
                                FirstPin(assignments, i, rest.value, k + 1);
      assert forall k :: 0 < k < |assignments| ==> assignments[k] == assignments[1..][k - 1];
      rest
  }

  /** `peer` has room, and no holder preferred to it has. */
  ghost predicate FirstWithRoom(ordered: seq<Peer>, load: map<Peer, nat>, cap: nat, peer: Peer, k: nat) {
    && k < |ordered| && ordered[k] == peer && UnderCap(load, cap, peer)
    && forall j :: 0 <= j < k ==> !UnderCap(load, cap, ordered[j])
  }

  function FirstUnderCap(ordered: seq<Peer>, load: map<Peer, nat>, cap: nat): (r: Option<Peer>)
    ensures r.Some? ==> exists k: nat :: FirstWithRoom(ordered, load, cap, r.value, k)
    ensures r.None? ==> forall p :: p in ordered ==> !UnderCap(load, cap, p)
  {
    if ordered == [] then None
    else
      assert ordered == [ordered[0]] + ordered[1..];
      if UnderCap(load, cap, ordered[0]) then
        assert FirstWithRoom(ordered, load, cap, ordered[0], 0);
        Some(ordered[0])
      else
        var rest := FirstUnderCap(ordered[1..], load, cap);
        assert forall k: nat :: rest.Some? && FirstWithRoom(ordered[1..], load, cap, rest.value, k) ==>
                                  FirstWithRoom(ordered, load, cap, rest.value, k + 1);
        rest
  }

  /** The plan pins a range to `peer`, or offers it. */
  ghost predicate Named(plan: SelectPlan, peer: Peer) {
    peer in plan.ordered || exists k :: 0 <= k < |plan.assignments| && plan.assignments[k].1 == peer
  }

  /** `pick_from_plan`: the pinned holder if it has room, else the first preferred one that has. */
  function PickFromPlan(plan: SelectPlan, i: nat, load: map<Peer, nat>, cap: nat): (r: Option<Peer>)
    ensures r.Some? ==> UnderCap(load, cap, r.value) && Named(plan, r.value)
    ensures forall p: Peer, k: nat :: FirstPin(plan.assignments, i, p, k) && UnderCap(load, cap, p) ==> r == Some(p)
    ensures (forall p: Peer, k: nat :: FirstPin(plan.assignments, i, p, k) ==> !UnderCap(load, cap, p)) ==>
              if r.Some? then exists k: nat :: FirstWithRoom(plan.ordered, load, cap, r.value, k)
              else forall p :: p in plan.ordered ==> !UnderCap(load, cap, p)
  {
    var pin := Pin(plan.assignments, i);
    if pin.Some? && UnderCap(load, cap, pin.value) then pin else FirstUnderCap(plan.ordered, load, cap)
  }

  /** The failures after which a run gives up. */
  function Budget(ranges: nat, attempts: nat): nat {
    Max(Min(ranges * attempts, U64_MAX), attempts)
  }

  /** A run over a valid commitment's plan: balanced books, and every byte not read back was delivered by a holder. */
  ghost predicate Sane(cfg: Config, c: ResourceCommitment, ranges: seq<Range>, b: Books, resumed: set<nat>,
                       log: seq<Fetching>) {
    && Balanced(b, Limits(cfg))
    && PlannedFrom(c, ranges) && b.lens == Lengths(ranges)
    && (b.hashed.Some? <==> cfg.verifyWholeResource)
    && Sourced(c, log, b.fed, resumed) && |log| <= b.accepted + b.failed
    && Spares(log, resumed) && (forall i :: i in resumed ==> i in b.fed)
    && (!cfg.verifyWholeResource ==> resumed == {})
  }

  /** Every verified byte was delivered during this run, but for the ranges read back from staging. */
  ghost predicate Sourced(c: ResourceCommitment, log: seq<Fetching>, fed: map<nat, Bytes>, resumed: set<nat>) {
    forall i :: i in fed && i !in resumed ==> Delivered(c, log, i, fed[i])
  }

  /** No fetch was of a range read back from staging. */
  ghost predicate Spares(log: seq<Fetching>, resumed: set<nat>) {
    forall k :: 0 <= k < |log| ==> log[k].index !in resumed
  }

  lemma SourcedLater(w: World, c: ResourceCommitment, log: seq<Fetching>, fed: map<nat, Bytes>, resumed: set<nat>,
                     flight: Flight, t: nat)
    requires Sourced(c, log, fed, resumed)
    ensures Sourced(c, Fetched(w, log, flight, t), fed, resumed)
  {
    var more := Fetched(w, log, flight, t);
    forall i | i in fed && i !in resumed ensures Delivered(c, more, i, fed[i]) {
      var k :| 0 <= k < |log| && log[k].index == i && log[k].reply.Ok? && log[k].reply.value.bytes == fed[i]
               && !Contradicts(c, log[k].reply.value.meta);
      assert more[k] == log[k];
    }
  }

  lemma SourcedMore(w: World, c: ResourceCommitment, log: seq<Fetching>, fed: map<nat, Bytes>, resumed: set<nat>,
                    flight: Flight, t: nat, bytes: Bytes)
    requires Sourced(c, log, fed, resumed) && ReplyTo(w, flight, t).Ok? && ReplyTo(w, flight, t).value.bytes == bytes
    requires !Contradicts(c, ReplyTo(w, flight, t).value.meta)
    ensures Sourced(c, Fetched(w, log, flight, t), fed[flight.index := bytes], resumed)
  {
    SourcedLater(w, c, log, fed, resumed, flight, t);
    assert Fetched(w, log, flight, t)[|log|].index == flight.index;
    assert Delivered(c, Fetched(w, log, flight, t), flight.index, bytes);
    hide Fetched, Delivered, ReplyTo;
  }

  ghost predicate PlannedFrom(c: ResourceCommitment, ranges: seq<Range>) {
    c.Valid() && Tiles(ranges, c.layout.chunkLens)
  }

  /** Where a planned range lies. */
  lemma PlannedRange(c: ResourceCommitment, ranges: seq<Range>, i: nat)
    requires PlannedFrom(c, ranges) && i < |ranges|
    ensures ranges[i].index == i && ranges[i].offset == Offset(Lengths(ranges), i)
    ensures ranges[i].offset + ranges[i].length <= c.totalLength == Offset(Lengths(ranges), |ranges|) <= U64_MAX
  {
    PlannedTotal(c, ranges);
    TilesSum(ranges, c.layout.chunkLens, i);
    OffsetStep(Lengths(ranges), i);
    OffsetMonotone(Lengths(ranges), i + 1, |ranges|);
  }

  lemma PlannedTotal(c: ResourceCommitment, ranges: seq<Range>)
    requires PlannedFrom(c, ranges)
    ensures Offset(Lengths(ranges), |ranges|) == c.totalLength <= U64_MAX
  {
    TilesSum(ranges, c.layout.chunkLens, |ranges|);
  }

  lemma PlannedTiling(c: ResourceCommitment, ranges: seq<Range>, window: nat)
    requires c.Valid() && Tiles(ranges, c.layout.chunkLens) && Packed(ranges, c.layout.chunkLens, window)
    ensures PlannedFrom(c, ranges) && Tiling(Lengths(ranges))
  {
    PlannedTotal(c, ranges);
    forall i | 0 <= i < |ranges| - 1 ensures Lengths(ranges)[i] > 0 {
      OffsetsAscend(ranges, c.layout.chunkLens, window, i, i + 1);
    }
  }

  /** The first range still needing work. */
  method NextPending(state: seq<RangeState>) returns (r: Option<nat>)
    ensures r.Some? ==> r.value < |state| && state[r.value] == Pending
    ensures r.None? ==> Pending !in state
  {
    for i := 0 to |state|
      invariant Pending !in state[..i]
    {
      assert state[..i + 1] == state[..i] + [state[i]];
      if state[i].Pending? {
        return Some(i);
      }
    }
    assert state[..|state|] == state;
    return None;
  }

  /** Nothing more can be assigned: a cap is reached, nothing is pending, or every holder offered is at its cap. */
  ghost predicate Saturated(b: Books, plan: SelectPlan, caps: Caps) {
    || |b.flights| >= caps.concurrency || Pending !in b.state
    || forall p :: p in plan.ordered ==> !UnderCap(b.load, caps.perSource, p)
  }

  /** A flight the plan asked for; its holder is known or not. */
  ghost predicate Offered(flight: Flight, plan: SelectPlan, providers: seq<Peer>) {
    Named(plan, flight.peer) && (flight.known <==> flight.peer in providers)
  }

  ghost predicate NamesNobody(plan: SelectPlan) { forall p: Peer :: !Named(plan, p) }

  lemma NamesSomeone(flights: seq<Flight>, k: nat, plan: SelectPlan, providers: seq<Peer>)
    requires k < |flights| && forall j :: k <= j < |flights| ==> Offered(flights[j], plan, providers)
    ensures !NamesNobody(plan)
  {
    assert Offered(flights[k], plan, providers);
  }

  /** The loop of `fill`: hands pending ranges to holders, one at a time, until nothing more can be assigned. */
  method Assign(plan: SelectPlan, providers: seq<Peer>, books: Books, caps: Caps) returns (b: Books)
    requires Balanced(books, caps)
    ensures Balanced(b, caps) && books.flights <= b.flights && Saturated(b, plan, caps)
    ensures b == books.(state := b.state, load := b.load, flights := b.flights, issued := b.issued)
    ensures forall k :: |books.flights| <= k < |b.flights| ==> Offered(b.flights[k], plan, providers)
  {
    hide *;
    b := books;
    while |b.flights| < caps.concurrency
      invariant Balanced(b, caps) && books.flights <= b.flights
      invariant b == books.(state := b.state, load := b.load, flights := b.flights, issued := b.issued)
      invariant forall k :: |books.flights| <= k < |b.flights| ==> Offered(b.flights[k], plan, providers)
      decreases caps.concurrency - |b.flights|
    {
      var i := NextPending(b.state);
      if i.None? {
        NothingToAssign(b, plan, caps);
        break;
      }
      var peer := PickFromPlan(plan, i.value, b.load, caps.perSource);
      if peer.None? {
        NoRoom(b, plan, caps, i.value);
        break;
      }
      IssueOffered(b, plan, caps, providers, i.value, peer.value);
      b := Issue(b, i.value, peer.value, peer.value in providers);
    }
    NothingToAssign(b, plan, caps);
  }

  lemma NothingToAssign(b: Books, plan: SelectPlan, caps: Caps)
    ensures Pending !in b.state || |b.flights| >= caps.concurrency ==> Saturated(b, plan, caps)
  {
  }

  lemma NoRoom(b: Books, plan: SelectPlan, caps: Caps, i: nat)
    requires PickFromPlan(plan, i, b.load, caps.perSource).None?
    ensures Saturated(b, plan, caps)
  {
  }

  lemma IssueOffered(b: Books, plan: SelectPlan, caps: Caps, providers: seq<Peer>, i: nat, peer: Peer)
    requires Balanced(b, caps) && i < |b.state| && b.state[i] == Pending && |b.flights| < caps.concurrency
    requires PickFromPlan(plan, i, b.load, caps.perSource) == Some(peer)
    ensures var next := Issue(b, i, peer, peer in providers);
            && Balanced(next, caps) && next.flights == b.flights + [Flight(i, peer, peer in providers)]
            && Offered(Flight(i, peer, peer in providers), plan, providers)
            && next == b.(state := next.state, load := next.load, flights := next.flights, issued := next.issued)
  {
    IssueKeeps(b, caps, i, peer, peer in providers);
    hide Balanced, Named, PickFromPlan;
  }

  /** `verify_fetched`: consistent metadata, then the planned length on chunk boundaries. */
  function VerifyFetched(c: ResourceCommitment, range: Range, fetched: FetchedRange): (r: Result<Bytes, DownloadError>)
    ensures r.Ok? ==> r.value == fetched.bytes && VerifyRange(c, range.chunkStart, range.length, r.value)
    ensures Contradicts(c, fetched.meta) ==> r == Err(Verify)
  {
    if !Consistent(c, fetched.meta) || !VerifyRange(c, range.chunkStart, range.length, fetched.bytes) then Err(Verify)
    else Ok(fetched.bytes)
  }

  /** A planned range's bytes are kept exactly if they are as many as planned and come with no contradiction. */
  lemma KeptExactly(c: ResourceCommitment, ranges: seq<Range>, i: nat, fetched: FetchedRange)
    requires PlannedFrom(c, ranges) && i < |ranges|
    ensures VerifyFetched(c, ranges[i], fetched) ==
            if |fetched.bytes| == ranges[i].length && !Contradicts(c, fetched.meta) then Ok(fetched.bytes)
            else Err(Verify)
  {
    PlannedRangeCheck(c, ranges, i, fetched.bytes);
    hide PlannedFrom, VerifyRange;
  }

  /** What the fetch of `flight` brings if it completes as call `t`: bytes that verified, or why there are none. */
  function Brought(w: World, c: ResourceCommitment, ranges: seq<Range>, flight: Flight, t: nat)
    : Result<Bytes, DownloadError>
    requires flight.index < |ranges|
  {
    var res := ReplyTo(w, flight, t);
    if res.Ok? then VerifyFetched(c, ranges[flight.index], res.value) else Err(res.error)
  }

  // ---- what the backoff tracker knows --------------------------------------------------------------------

  /** How a logged fetch counts for its holder. */
  function OutcomeOf(w: World, c: ResourceCommitment, ranges: seq<Range>, e: Fetching): Attempt {
    if e.index < |ranges| && e.reply.Ok? && VerifyFetched(c, ranges[e.index], e.reply.value).Ok? then Success
    else Failure(w.clock(e.at))
  }

  /** What the logged fetches from `p` came to, in order. */
  function Outcomes(w: World, c: ResourceCommitment, ranges: seq<Range>, log: seq<Fetching>, p: Peer): seq<Attempt> {
    if log == [] then []
    else
      var (init, last) := (log[..|log| - 1], log[|log| - 1]);
      Outcomes(w, c, ranges, init, p) + if last.peer == p then [OutcomeOf(w, c, ranges, last)] else []
  }

  function HealthIn(health: map<Peer, SourceHealth>, p: Peer): SourceHealth {
    if p in health then health[p] else HEALTHY
  }

  /** The tracker's records, which were `before`, are `now` what the logged fetches make of them. */
  ghost predicate Reflects(w: World, c: ResourceCommitment, ranges: seq<Range>, log: seq<Fetching>,
                           before: map<Peer, SourceHealth>, now: map<Peer, SourceHealth>, base: nat, max: nat) {
    forall p: Peer ::
      HealthIn(now, p) == After(HealthIn(before, p), Outcomes(w, c, ranges, log, p), base, max)
  }

  lemma OutcomesNext(w: World, c: ResourceCommitment, ranges: seq<Range>, log: seq<Fetching>, e: Fetching, p: Peer)
    ensures Outcomes(w, c, ranges, log + [e], p) ==
            Outcomes(w, c, ranges, log, p) + if e.peer == p then [OutcomeOf(w, c, ranges, e)] else []
  {
    hide OutcomeOf;
    assert (log + [e])[..|log|] == log;
  }

  /** One more fetch changes the record of its own holder, by what it came to, and no other. */
  lemma AfterNext(w: World, c: ResourceCommitment, ranges: seq<Range>, log: seq<Fetching>, e: Fetching, p: Peer,
                  before: SourceHealth, base: nat, max: nat)
    ensures var was := After(before, Outcomes(w, c, ranges, log, p), base, max);
            After(before, Outcomes(w, c, ranges, log + [e], p), base, max) ==
            if p != e.peer then was
            else match OutcomeOf(w, c, ranges, e)
                 case Success => Succeeded(was)
                 case Failure(at) => Failed(was, base, max, at)
  {
    OutcomesNext(w, c, ranges, log, e, p);
    hide OutcomeOf, Outcomes, Succeeded, Failed;
    var past := Outcomes(w, c, ranges, log, p);
    assert (past + [OutcomeOf(w, c, ranges, e)])[..|past|] == past;
    assert past + [] == past;
  }

  lemma RecordedNext(w: World, c: ResourceCommitment, ranges: seq<Range>, log: seq<Fetching>, flight: Flight, t: nat,
                     before: map<Peer, SourceHealth>, was: map<Peer, SourceHealth>, base: nat, max: nat)
    requires Reflects(w, c, ranges, log, before, was, base, max) && flight.index < |ranges|
    ensures var (p, all) := (flight.peer, Fetched(w, log, flight, t));
            && (Brought(w, c, ranges, flight, t).Ok? ==>
                  Reflects(w, c, ranges, all, before, was[p := Succeeded(HealthIn(was, p))], base, max))
            && (Brought(w, c, ranges, flight, t).Err? ==>
                  Reflects(w, c, ranges, all, before, was[p := Failed(HealthIn(was, p), base, max, w.clock(t))], base,
                           max))
  {
    var e := Fetching(t, flight.peer, flight.index, flight.known, ReplyTo(w, flight, t));
    assert OutcomeOf(w, c, ranges, e)
        == if Brought(w, c, ranges, flight, t).Ok? then Success else Failure(w.clock(t));
    hide VerifyFetched, Succeeded, Failed, Outcomes, OutcomeOf, After, Brought;
    forall p: Peer
      ensures After(HealthIn(before, p), Outcomes(w, c, ranges, log + [e], p), base, max) ==
              if p != flight.peer then HealthIn(was, p)
              else match OutcomeOf(w, c, ranges, e)
                   case Success => Succeeded(HealthIn(was, p))
                   case Failure(at) => Failed(HealthIn(was, p), base, max, at)
    {
      AfterNext(w, c, ranges, log, e, p, HealthIn(before, p), base, max);
    }
  }

  /** From every call on the world does its part for this plan: the selector offers one of `holders` and no one else,
      fetches from them, of ranges that were not `spared`, bring what verifies, and a turn wakes up to a completed
      fetch. At the calls in `slips` a fetch may fail recoverably, or a turn wake up to something else, but to no pause
      or end, and just before them the selector may offer no one, if then holders can be located; there are no more
      slips than the run tolerates failures. */
  ghost predicate Obliging(w: World, cfg: Config, c: ResourceCommitment, ranges: seq<Range>, holders: seq<Peer>,
                           spared: set<nat>, slips: set<nat>) {
    && ranges != [] && cfg.maxConcurrency > 0 && cfg.maxInflightPerSource > 0
    && |slips| <= Budget(|ranges|, cfg.maxRangeAttempts)
    && (forall t: nat :: Sticks(w.select(t), holders))
    && (forall t: nat :: w.select(t).ordered != [] || (t + 1 in slips && w.locate(t + 1).Ok?))
    && (forall t: nat :: w.event(t).Completion? || (t in slips && !w.event(t).Pause? && !w.event(t).Cancel?))
    && (forall t: nat, p: Peer, i: nat :: p in holders && i < |ranges| && i !in spared ==>
                                            Honours(w, c, ranges, p, i, t, t in slips))
  }

  /** The plan names no one but `holders`. */
  ghost predicate Sticks(plan: SelectPlan, holders: seq<Peer>) { forall p: Peer :: Named(plan, p) ==> p in holders }

  /** `p`, asked for range `i`, brings that many bytes and contradicts nothing, or slips. */
  ghost predicate Honours(w: World, c: ResourceCommitment, ranges: seq<Range>, p: Peer, i: nat, t: nat, slips: bool)
    requires i < |ranges|
  {
    match w.fetch(t, p, i)
    case Ok(fetched) => slips || (|fetched.bytes| == ranges[i].length && !Contradicts(c, fetched.meta))
    case Err(e) => slips && e.IsRecoverable()
  }

  lemma HonoursBrings(w: World, c: ResourceCommitment, ranges: seq<Range>, flight: Flight, t: nat, slips: bool)
    requires PlannedFrom(c, ranges) && flight.index < |ranges| && flight.known
    requires Honours(w, c, ranges, flight.peer, flight.index, t, slips)
    ensures var got := Brought(w, c, ranges, flight, t); got.Ok? || (slips && got.error.IsRecoverable())
  {
    if w.fetch(t, flight.peer, flight.index).Ok? {
      KeptExactly(c, ranges, flight.index, w.fetch(t, flight.peer, flight.index).value);
    }
    hide PlannedFrom, VerifyFetched;
  }

  /** Everything in flight comes from a known holder among `holders`. */
  ghost predicate Manned(flights: seq<Flight>, holders: seq<Peer>) {
    forall k :: 0 <= k < |flights| ==> flights[k].known && flights[k].peer in holders
  }

  lemma MannedMore(before: seq<Flight>, flights: seq<Flight>, plan: SelectPlan, providers: seq<Peer>,
                   holders: seq<Peer>)
    requires Manned(before, holders) && before <= flights && Sticks(plan, holders)
    requires forall p :: p in holders ==> p in providers
    requires forall k :: |before| <= k < |flights| ==> Offered(flights[k], plan, providers)
    ensures Manned(flights, holders)
  {
    hide Named;
    forall k | 0 <= k < |flights| ensures flights[k].known && flights[k].peer in holders {
      if k < |before| {
        assert flights[k] == before[k];
      } else {
        assert Offered(flights[k], plan, providers);
      }
    }
  }

  lemma MannedLess(flights: seq<Flight>, k: nat, holders: seq<Peer>)
    requires Manned(flights, holders) && k < |flights|
    ensures Manned(Without(flights, k), holders)
  {
    var rest := Without(flights, k);
    assert forall j :: 0 <= j < |rest| ==> rest[j] == flights[if j < k then j else j + 1];
  }

  /** If holders are offered and the caps allow any fetch at all, an unfinished run has one in flight. */
  lemma Busy(b: Books, plan: SelectPlan, caps: Caps)
    requires Balanced(b, caps) && Saturated(b, plan, caps) && plan.ordered != []
    requires caps.concurrency > 0 && caps.perSource > 0 && b.state != [] && !AllDone(b.state)
    ensures b.flights != []
  {
    if b.flights == [] {
      Idle(b, caps);
      Room(b, plan, caps);
    }
    hide Balanced, Named, AllDone;
  }

  lemma Room(b: Books, plan: SelectPlan, caps: Caps)
    requires b.flights == [] && Pending in b.state && plan.ordered != []
    requires caps.concurrency > 0 && caps.perSource > 0 && forall p: Peer :: LoadOf(b.load, p) == 0
    ensures !Saturated(b, plan, caps)
  {
    assert UnderCap(b.load, caps.perSource, plan.ordered[0]);
  }

  /** One more range is done, or a slip cost at most one failure. */
  ghost predicate Stepped(b: Books, b': Books, slip: bool) {
    || (|b'.fed| == |b.fed| + 1 && b'.failed == b.failed)
    || (slip && b'.fed == b.fed && b.failed <= b'.failed <= b.failed + 1)
  }

  lemma AcceptSteps(b: Books, caps: Caps, k: nat, bytes: Bytes, slip: bool)
    requires Balanced(b, caps) && Lands(b, k)
    ensures Stepped(b, Accept(b, k, bytes), slip) && Accept(b, k, bytes).flights == Without(b.flights, k)
  {
    var i := b.flights[k].index;
    assert b.state[i] == InFlight(b.flights[k].peer);
    assert i !in b.fed;
    assert b.fed[i := bytes].Keys == b.fed.Keys + {i};
    hide FlightsAgree, LoadAgrees, Tally, Settled, DoneBytes, Tiling, Relieve, LoadOf, Fed, Without;
  }

  lemma RequeueSteps(b: Books, k: nat)
    requires Lands(b, k)
    ensures Stepped(b, Requeue(b, k), true) && Requeue(b, k).flights == Without(b.flights, k)
  {
  }

  /** After `turns` turns of a steady run: each brought a range home or spent one of the slips, at its own call. */
  ghost predicate Paced(turns: nat, b: Books, spent: set<nat>, slips: set<nat>, now: nat) {
    && turns <= |b.fed| + |spent| && b.failed <= |spent| && spent <= slips && (forall t :: t in spent ==> t <= now)
    && (turns > 0 ==> |b.fed| <= |b.lens|)
  }

  lemma PacedStart(b: Books, slips: set<nat>, now: nat)
    ensures b.failed == 0 ==> Paced(0, b, {}, slips, now)
  {
  }

  lemma SlipsLeft(turns: nat, b: Books, spent: set<nat>, slips: set<nat>, now: nat)
    requires Paced(turns, b, spent, slips, now)
    ensures b.failed <= |slips|
  {
    Subset(spent, slips);
  }

  lemma Subset(a: set<nat>, b: set<nat>)
    requires a <= b
    ensures |a| <= |b|
  {
    assert b == a + (b - a);
  }

  lemma OneMoreTurn(turns: nat, b: Books, b': Books, spent: set<nat>, slips: set<nat>, t: nat, now: nat)
    returns (spent': set<nat>)
    requires Paced(turns, b, spent, slips, t) && Stepped(b, b', t + 1 in slips) && t < now
    requires b'.lens == b.lens && |b.fed| < |b.lens|
    ensures Paced(turns + 1, b', spent', slips, now)
  {
    spent' := if |b'.fed| == |b.fed| + 1 && b'.failed == b.failed then spent else spent + {t + 1};
  }

  /** More turns than ranges and slips together cannot all be paced. */
  lemma Late(turns: nat, b: Books, spent: set<nat>, slips: set<nat>, now: nat)
    requires Paced(turns, b, spent, slips, now)
    ensures turns <= |b.lens| + |slips|
  {
    Subset(spent, slips);
  }

  /** What accepting the bytes of flight `k` does to sane books. */
  lemma AcceptSane(w: World, cfg: Config, c: ResourceCommitment, ranges: seq<Range>, b: Books, resumed: set<nat>,
                   log: seq<Fetching>, t: nat, k: nat, bytes: Bytes)
    requires Sane(cfg, c, ranges, b, resumed, log) && k < |b.flights|
    requires b.flights[k].index < |ranges| ==>
               VerifyRange(c, ranges[b.flights[k].index].chunkStart, ranges[b.flights[k].index].length, bytes)
    requires ReplyTo(w, b.flights[k], t).Ok? && ReplyTo(w, b.flights[k], t).value.bytes == bytes
    requires !Contradicts(c, ReplyTo(w, b.flights[k], t).value.meta)
    ensures Lands(b, k) && |bytes| == b.lens[b.flights[k].index]
    ensures Sane(cfg, c, ranges, Accept(b, k, bytes), resumed, Fetched(w, log, b.flights[k], t))
  {
    var i := b.flights[k].index;
    FlightIndex(b, Limits(cfg), k);
    PlannedRangeCheck(c, ranges, i, bytes);
    AcceptKeeps(b, Limits(cfg), k, bytes);
    SourcedMore(w, c, log, b.fed, resumed, b.flights[k], t, bytes);
    SparesMore(cfg, c, ranges, b, resumed, log, w, t, k);
    hide Balanced, Sourced, PlannedFrom, VerifyRange, Spares;
  }

  /** The fetch of flight `k` brought `bytes` that verified: where they belong, and what accepting them leaves. */
  lemma Completes(w: World, cfg: Config, c: ResourceCommitment, ranges: seq<Range>, b: Books, resumed: set<nat>,
                  log: seq<Fetching>, since: nat, t: nat, latest: nat, k: nat, bytes: Bytes)
    requires Sane(cfg, c, ranges, b, resumed, log) && Timely(w, since, t, latest, log) && Lands(b, k)
    requires b.flights[k].index < |ranges| && Brought(w, c, ranges, b.flights[k], t) == Ok(bytes)
    ensures var (i, next, more) := (b.flights[k].index, Accept(b, k, bytes), Fetched(w, log, b.flights[k], t));
            && Sane(cfg, c, ranges, next, resumed, more) && Timely(w, since, t + 1, latest, more)
            && next.lens == b.lens && next.fed == b.fed[i := bytes] && next.failed == b.failed
            && next.issued == b.issued && Extends(b, next)
            && i < |b.lens| && ranges[i].offset == Offset(b.lens, i) && |bytes| == b.lens[i]
            && ranges[i].offset + |bytes| <= U64_MAX
  {
    hide ReplyTo;
    AcceptSane(w, cfg, c, ranges, b, resumed, log, t, k, bytes);
    TimelyFetched(w, since, t, latest, latest, log, b.flights[k]);
    AcceptExtends(b, Limits(cfg), k, bytes);
    PlannedRange(c, ranges, b.flights[k].index);
    hide Balanced, Sourced, PlannedFrom, Timely, Fetched, VerifyRange, Lengths, Offset, Extends;
  }

  lemma RequeueSane(w: World, cfg: Config, c: ResourceCommitment, ranges: seq<Range>, b: Books, resumed: set<nat>,
                    log: seq<Fetching>, t: nat, k: nat)
    requires Sane(cfg, c, ranges, b, resumed, log) && k < |b.flights|
    ensures Lands(b, k)
    ensures Sane(cfg, c, ranges, Requeue(b, k), resumed, Fetched(w, log, b.flights[k], t))
  {
    FlightIndex(b, Limits(cfg), k);
    RequeueKeeps(b, Limits(cfg), k);
    SourcedLater(w, c, log, b.fed, resumed, b.flights[k], t);
    SparesMore(cfg, c, ranges, b, resumed, log, w, t, k);
    hide Balanced, Sourced, PlannedFrom, Spares;
  }

  /** What is in flight is not done, so it was not read back. */
  lemma SparesMore(cfg: Config, c: ResourceCommitment, ranges: seq<Range>, b: Books, resumed: set<nat>,
                   log: seq<Fetching>, w: World, t: nat, k: nat)
    requires Sane(cfg, c, ranges, b, resumed, log) && Lands(b, k)
    ensures Spares(Fetched(w, log, b.flights[k], t), resumed)
  {
    assert b.state[b.flights[k].index] == InFlight(b.flights[k].peer);
    hide Sourced, PlannedFrom, Settled, Tiling, LoadAgrees, DoneBytes, Tally, ReplyTo;
  }

  lemma FlightIndex(b: Books, caps: Caps, k: nat)
    requires Balanced(b, caps) && k < |b.flights|
    ensures Lands(b, k)
    ensures b.bytesDone + b.lens[b.flights[k].index] <= U64_MAX
  {
    var i := b.flights[k].index;
    assert b.state[i] == InFlight(b.flights[k].peer);
    DoneBytesUpdate(b.lens, b.state, i, Done, |b.lens|);
    DoneBytesBound(b.lens, b.state[i := Done], |b.lens|);
  }

  /** The clock runs on, past this run's start and the last failure, and the run's fetches are logged. */
  ghost predicate Timely(w: World, since: nat, now: nat, latest: nat, log: seq<Fetching>) {
    w.ClockRuns() && since <= now && latest <= w.clock(now) && w.Logged(log, since, now)
  }

  /** Assigning ranges to holders keeps sane books sane. */
  lemma AssignSane(cfg: Config, c: ResourceCommitment, ranges: seq<Range>, b: Books, b': Books, resumed: set<nat>,
                   log: seq<Fetching>)
    requires Sane(cfg, c, ranges, b, resumed, log)
    requires b' == b.(state := b'.state, load := b'.load, flights := b'.flights, issued := b'.issued)
    ensures Balanced(b, Limits(cfg))
    ensures Balanced(b', Limits(cfg)) ==> Sane(cfg, c, ranges, b', resumed, log)
    ensures b'.lens == b.lens && b'.fed == b.fed && b'.failed == b.failed
  {
    hide Balanced, Sourced, PlannedFrom;
  }

  lemma TimelyNext(w: World, since: nat, now: nat, later: nat, latest: nat, log: seq<Fetching>)
    requires Timely(w, since, now, latest, log) && now <= later
    ensures Timely(w, since, later, latest, log) && latest <= w.clock(now)
  {
    assert w.clock(now) <= w.clock(later);
  }

  /** A fetch completed as call `now`, and `seen` is the time of the last failure then. */
  lemma TimelyFetched(w: World, since: nat, now: nat, latest: nat, seen: nat, log: seq<Fetching>, flight: Flight)
    requires Timely(w, since, now, latest, log) && (seen == latest || seen == w.clock(now))
    ensures Timely(w, since, now + 1, seen, Fetched(w, log, flight, now)) && latest <= w.clock(now)
  {
    assert w.clock(now) <= w.clock(now + 1);
  }

  lemma TimelyLogged(w: World, since: nat, now: nat, latest: nat, log: seq<Fetching>)
    requires Timely(w, since, now, latest, log)
    ensures w.Logged(log, since, now)
  {
    hide World.Logged;
  }

  lemma MoreFailures(total: nat, b: Books, k: nat)
    requires Lands(b, k) && total == Min(b.failed, U64_MAX)
    ensures Min(total + 1, U64_MAX) == Min(Requeue(b, k).failed, U64_MAX)
    ensures Requeue(b, k).lens == b.lens && Requeue(b, k).fed == b.fed && Requeue(b, k).failed == b.failed + 1
  {
  }

  lemma RequeueSame(b: Books, k: nat)
    requires Lands(b, k)
    ensures Requeue(b, k).issued == b.issued && Extends(b, Requeue(b, k)) && Extends(b, b)
  {
  }

  lemma Extended(b: Books, b': Books, b'': Books)
    requires Extends(b, b') && Extends(b', b'')
    ensures Extends(b, b'') && b''.lens == b'.lens
  {
  }

  lemma NoFault(store: StateStore)
    ensures store.Works() ==> forall t: nat, o: StoreOp :: !store.faults(t, o)
    ensures store.Keeps() ==> forall t: nat :: !store.faults(t, Saving) && !store.faults(t, Loading)
  {
  }

  lemma SameExtends(b: Books)
    ensures Extends(b, b)
  {
  }

  lemma FlightLands(cfg: Config, c: ResourceCommitment, ranges: seq<Range>, b: Books, resumed: set<nat>,
                    log: seq<Fetching>, k: nat)
    requires Sane(cfg, c, ranges, b, resumed, log) && k < |b.flights|
    ensures Lands(b, k) && b.flights[k].index < |ranges| && b.flights[k].index !in resumed
  {
    FlightIndex(b, Limits(cfg), k);
    assert b.state[b.flights[k].index] == InFlight(b.flights[k].peer);
    hide Sourced, PlannedFrom, Settled, Tiling, LoadAgrees, DoneBytes, Tally;
  }

  /** Assigning ranges puts as many in flight as it issues, and finishes none. */
  lemma FillCounts(b: Books, b': Books, caps: Caps)
    requires Balanced(b, caps) && Balanced(b', caps)
    requires b' == b.(state := b'.state, load := b'.load, flights := b'.flights, issued := b'.issued)
    ensures b'.issued - b.issued == |b'.flights| - |b.flights|
    ensures AllDone(b'.state) <==> AllDone(b.state)
  {
    assert Counted(b) && Counted(b');
    assert |b.state| == |b.lens| == |b'.state|;
    if b.lens != [] {
      FedCount(b, caps);
      FedCount(b', caps);
    }
    hide Balanced;
  }

  class Job {
    const world: World
    const cfg: Config
    const sink: Sink
    const store: StateStore
    const tracker: SourceTracker
    var tick: nat
    var providers: seq<Peer>
    var commitment: Option<ResourceCommitment>
    var ranges: seq<Range>
    var resume: DownloadState // all but its done ranges, which are in `books`
    var books: Books          // range states, flights, loads, done ranges, byte count and hasher
    var paused: bool
    var relocateAttempts: nat
    var relocatedSinceProgress: bool
    var totalFailures: nat
    ghost var resumed: set<nat> // the ranges read back from staging
    ghost var since: nat        // when this run began
    ghost var fetches: seq<Fetching> // this run's completed fetches
    ghost var records: map<Peer, SourceHealth> // what the tracker knew when this run began

    constructor (world: World, cfg: Config, sink: Sink, store: StateStore, tracker: SourceTracker)
      ensures this.world == world && this.cfg == cfg && this.sink == sink && this.store == store
      ensures this.tracker == tracker && tick == 0 && commitment == None
      ensures totalFailures == 0 && books.issued == 0 && relocateAttempts == 0 && !relocatedSinceProgress && !paused
    {
      this.world, this.cfg, this.sink, this.store, this.tracker := world, cfg, sink, store, tracker;
      tick, providers, commitment, ranges, resume := 0, [], None, [], NO_STATE;
      books := Books([], [], {}, 0, map[], [], map[], None, 0, 0, 0);
      paused, relocateAttempts, relocatedSinceProgress, totalFailures := false, 0, false, 0;
      resumed, since, fetches, records := {}, 0, [], map[];
    }

    /** The tracker knows what this run's fetches came to. */
    ghost predicate Tracked()
      reads this`commitment, this`ranges, this`fetches, this`records, tracker`health
    {
      && commitment.Some?
      && Reflects(world, commitment.value, ranges, fetches, records, tracker.health, tracker.base, tracker.max)
    }

    /** The job's invariant while it schedules. */
    ghost predicate Healthy()
      reads this, sink, tracker
    {
      && commitment.Some? && Sane(cfg, commitment.value, ranges, books, resumed, fetches)
      && (sink.Undisturbed() ==> Staged(sink.buf, books.lens, books.fed))
      && tracker.Valid() && Timely(world, since, tick, tracker.latest, fetches) && Tracked()
      && totalFailures == Min(books.failed, U64_MAX)
    }

    /** Assigns pending ranges to holders as the selector prefers, up to the caps. */
    method Fill()
      requires Healthy()
      modifies this`tick, this`books
      ensures Healthy() && tick == old(tick) + 1 && old(books).flights <= books.flights
      ensures Saturated(books, world.select(old(tick)), Limits(cfg))
      ensures books == old(books).(state := books.state, load := books.load, flights := books.flights,
                                   issued := books.issued)
      ensures forall k :: |old(books).flights| <= k < |books.flights| ==>
                            Offered(books.flights[k], world.select(old(tick)), providers)
      ensures books.issued - old(books).issued == |books.flights| - |old(books).flights|
      ensures AllDone(books.state) <==> AllDone(old(books).state)
    {
      hide *;
      Parts();
      ghost var c := commitment.value;
      AssignSane(cfg, c, ranges, books, books, resumed, fetches);
      var b := Assign(world.select(tick), providers, books, Limits(cfg));
      AssignSane(cfg, c, ranges, books, b, resumed, fetches);
      FillCounts(books, b, Limits(cfg));
      TimelyNext(world, since, tick, tick + 1, tracker.latest, fetches);
      tick, books := tick + 1, b;
      StayHealthy(c);
    }

    /** The checkpoint as it is saved. */
    function Checkpoint(): DownloadState
      reads this`resume, this`books
    {
      resume.(doneRanges := books.done)
    }

    /** Writes a verified range to its place in the sink. */
    method Stage(i: nat, bytes: Bytes) returns (ok: bool)
      requires i < |ranges| && i < |books.lens| && ranges[i].offset == Offset(books.lens, i) && |bytes| == books.lens[i]
      requires sink.Undisturbed() ==> Staged(sink.buf, books.lens, books.fed)
      modifies sink
      ensures sink.finalized == old(sink.finalized)
      ensures ok && sink.Undisturbed() ==> Staged(sink.buf, books.lens, books.fed[i := bytes])
      ensures sink.Works() && ranges[i].offset + |bytes| <= U64_MAX ==> ok
    {
      ghost var before := sink.buf;
      hide Staged, Offset, Splice;
      ok := sink.WriteAt(ranges[i].offset, bytes);
      if ok && sink.Undisturbed() {
        WriteStages(before, books.lens, books.fed, i, bytes);
      }
    }

    /** A fetch brought bytes that verified: stage, hash, mark done, checkpoint. */
    method Complete(k: nat, flight: Flight, c: ResourceCommitment, bytes: Bytes)
      returns (r: Result<(), DownloadError>)
      requires Lands(books, k) && books.flights[k] == flight && commitment == Some(c) && flight.index < |ranges|
      requires Brought(world, c, ranges, flight, tick) == Ok(bytes) && Healthy()
      modifies this`tick, this`books, this`relocatedSinceProgress, this`fetches
      modifies sink, store`ops, store`checkpoint, store`saves, tracker`health
      ensures sink.finalized == old(sink.finalized) && tick == old(tick) + 1
      ensures books.issued == old(books).issued && Extends(old(books), books)
      ensures fetches == Fetched(world, old(fetches), flight, old(tick))
      ensures r.Ok? ==>
                tracker.health == old(tracker.health)[flight.peer := Succeeded(old(tracker.Health(flight.peer)))]
      ensures r.Ok? ==> !relocatedSinceProgress && books.failed == old(books).failed
      ensures r.Ok? ==> books == Accept(old(books), k, bytes) && store.checkpoint == Some(Checkpoint())
      ensures r.Ok? ==> Healthy()
      ensures sink.Works() && store.Keeps() ==> r.Ok?
      ensures r.Err? ==> (r.error == DownloadError.Sink && !sink.Works()) || (r.error == State && !store.Keeps())
    {
      hide *;
      SameExtends(books);
      NoFault(store);
      Parts();
      Completes(world, cfg, c, ranges, books, resumed, fetches, since, tick, tracker.latest, k, bytes);
      WillTrack(flight, c);
      tick, fetches := tick + 1, Fetched(world, fetches, flight, tick);
      var written := Stage(flight.index, bytes);
      if !written {
        return Err(DownloadError.Sink);
      }
      books, relocatedSinceProgress := Accept(books, k, bytes), false;
      tracker.RecordSuccess(flight.peer);
      NowTracked(c);
      StayHealthy(c);
      var saved := store.Save(Checkpoint());
      if !saved {
        return Err(State);
      }
      return Ok(());
    }

    /** What the tracker is to record of a completing fetch. */
    lemma WillTrack(flight: Flight, c: ResourceCommitment)
      requires Tracked() && commitment == Some(c) && flight.index < |ranges|
      ensures var (p, all) := (flight.peer, Fetched(world, fetches, flight, tick));
              var (base, max) := (tracker.base, tracker.max);
              && (Brought(world, c, ranges, flight, tick).Ok? ==>
                    Reflects(world, c, ranges, all, records,
                             tracker.health[p := Succeeded(tracker.Health(p))], base, max))
              && (Brought(world, c, ranges, flight, tick).Err? ==>
                    Reflects(world, c, ranges, all, records,
                             tracker.health[p := Failed(tracker.Health(p), base, max, world.clock(tick))], base, max))
    {
      hide Reflects, Fetched, Brought, Succeeded, Failed;
      RecordedNext(world, c, ranges, fetches, flight, tick, records, tracker.health, tracker.base, tracker.max);
    }

    lemma NowTracked(c: ResourceCommitment)
      requires commitment == Some(c)
      requires Reflects(world, c, ranges, fetches, records, tracker.health, tracker.base, tracker.max)
      ensures Tracked()
    {
      hide Reflects;
    }

    lemma StayHealthy(c: ResourceCommitment)
      requires commitment == Some(c) && Sane(cfg, c, ranges, books, resumed, fetches)
      requires sink.Undisturbed() ==> Staged(sink.buf, books.lens, books.fed)
      requires tracker.Valid() && Timely(world, since, tick, tracker.latest, fetches) && Tracked()
      requires totalFailures == Min(books.failed, U64_MAX)
      ensures Healthy()
    {
      hide Sane, Staged, SourceTracker.Valid, Timely, Tracked, Sink.Undisturbed;
    }

    /** What a healthy job consists of. */
    lemma Parts()
      requires Healthy()
      ensures commitment.Some? && Sane(cfg, commitment.value, ranges, books, resumed, fetches)
      ensures sink.Undisturbed() ==> Staged(sink.buf, books.lens, books.fed)
      ensures tracker.Valid() && Timely(world, since, tick, tracker.latest, fetches) && Tracked()
      ensures totalFailures == Min(books.failed, U64_MAX) && Spares(fetches, resumed)
    {
    }

    /** A fetch failed recoverably: penalise the holder and make the range pending again. */
    method PutBack(k: nat)
      requires k < |books.flights| && Healthy() && commitment.Some? && books.flights[k].index < |ranges|
      requires Brought(world, commitment.value, ranges, books.flights[k], tick).Err?
      modifies this`tick, this`books, this`totalFailures, this`fetches, tracker
      ensures tick == old(tick) + 1 && Lands(old(books), k) && books == Requeue(old(books), k)
      ensures fetches == Fetched(world, old(fetches), old(books).flights[k], old(tick))
      ensures books.failed == old(books).failed + 1
      ensures var peer := old(books).flights[k].peer;
              tracker.health == old(tracker.health)[
                peer := Failed(old(tracker.Health(peer)), tracker.base, tracker.max, world.clock(old(tick)))]
      ensures Healthy()
    {
      hide *;
      Parts();
      ghost var c := commitment.value;
      RequeueSane(world, cfg, c, ranges, books, resumed, fetches, tick, k);
      TimelyFetched(world, since, tick, tracker.latest, world.clock(tick), fetches, books.flights[k]);
      WillTrack(books.flights[k], c);
      var peer := books.flights[k].peer;
      fetches := Fetched(world, fetches, books.flights[k], tick);
      MoreFailures(totalFailures, books, k);
      books, totalFailures := Requeue(books, k), Min(totalFailures + 1, U64_MAX);
      tracker.RecordFailure(peer, world.clock(tick));
      tick := tick + 1;
      NowTracked(c);
      StayHealthy(c);
    }

    /** `handle_result`: a completed fetch is verified and kept, or its holder penalised and the range re-queued. */
    method HandleResult(k: nat) returns (r: Result<(), DownloadError>, ghost kept: Option<Bytes>)
      requires k < |books.flights| && Healthy()
      modifies this`tick, this`books, this`totalFailures, this`relocatedSinceProgress, this`fetches
      modifies sink, store`ops, store`checkpoint, store`saves, tracker
      ensures Spares(fetches, resumed)
      ensures sink.finalized == old(sink.finalized) && tick == old(tick) + 1
      ensures books.issued == old(books).issued && Extends(old(books), books)
      ensures Lands(old(books), k) && old(books).flights[k].index < |ranges| && commitment.Some?
      ensures fetches == Fetched(world, old(fetches), old(books).flights[k], old(tick))
      ensures var brought := Brought(world, commitment.value, ranges, old(books).flights[k], old(tick));
              && (brought.Ok? <==> kept.Some?) && (brought.Ok? ==> kept == Some(brought.value))
              && (brought.Err? ==> if brought.error.IsRecoverable() then r.Ok? else r == Err(brought.error))
      ensures r.Ok? ==>
                && books == (if kept.Some? then Accept(old(books), k, kept.value) else Requeue(old(books), k))
                && books.failed == old(books).failed + (if kept.Some? then 0 else 1)
                && relocatedSinceProgress == (old(relocatedSinceProgress) && kept.None?)
      ensures r.Ok? ==> Healthy()
      ensures kept.Some? && sink.Works() && store.Keeps() ==> r.Ok?
      ensures r.Err? ==>
                || (fetches != [] && Fatal(fetches[|fetches| - 1], r.error, old(tick)))
                || (r.error == DownloadError.Sink && !sink.Works()) || (r.error == State && !store.Keeps())
    {
      hide *;
      kept := None;
      Parts();
      var (flight, c) := (books.flights[k], commitment.value);
      FlightLands(cfg, c, ranges, books, resumed, fetches, k);
      SparesMore(cfg, c, ranges, books, resumed, fetches, world, tick, k);
      var res := ReplyTo(world, flight, tick);
      var outcome := if res.Ok? then VerifyFetched(c, ranges[flight.index], res.value) else Err(res.error);
      BroughtIs(c, flight);
      if outcome.Ok? {
        kept := Some(outcome.value);
        r := Complete(k, flight, c, outcome.value);
      } else {
        RequeueSame(books, k);
        if !outcome.error.IsRecoverable() {
          FatalNow(world, c, ranges, fetches, flight, tick);
          tick, fetches := tick + 1, Fetched(world, fetches, flight, tick);
          return Err(outcome.error), kept;
        }
        PutBack(k);
        r := Ok(());
      }
    }

    static lemma FatalNow(w: World, c: ResourceCommitment, ranges: seq<Range>, log: seq<Fetching>, flight: Flight,
                          t: nat)
      requires flight.index < |ranges|
      ensures var (all, got) := (Fetched(w, log, flight, t), Brought(w, c, ranges, flight, t));
              got.Err? && !got.error.IsRecoverable() ==> all != [] && Fatal(all[|all| - 1], got.error, t)
    {
    }

    lemma BroughtIs(c: ResourceCommitment, flight: Flight)
      requires flight.index < |ranges|
      ensures var res := ReplyTo(world, flight, tick);
              Brought(world, c, ranges, flight, tick) ==
              if res.Ok? then VerifyFetched(c, ranges[flight.index], res.value) else Err(res.error)
    {
    }

    // ---- discovery ----------------------------------------------------------------------------------

    /** Locates holders and keeps those that confirm they hold the content. */
    method LocateAndConfirm() returns (r: Result<seq<Peer>, DownloadError>)
      modifies this`tick
      ensures old(tick) < tick
      ensures r.Ok? ==> world.locate(old(tick)).Ok? && tick == old(tick) + 1 + |world.locate(old(tick)).value|
      ensures r == match world.locate(old(tick))
                   case Ok(found) => Ok(Confirmed(world, found, old(tick) + 1))
                   case Err(e) => Err(e)
    {
      var located := world.locate(tick);
      tick := tick + 1;
      if located.Err? {
        return Err(located.error);
      }
      var found := located.value;
      var confirmed: seq<Peer> := [];
      for i := 0 to |found|
        invariant tick == old(tick) + 1 + i && confirmed == Confirmed(world, found[..i], old(tick) + 1)
      {
        assert found[..i + 1][..i] == found[..i];
        if world.available(tick, found[i]) {
          confirmed := confirmed + [found[i]];
        }
        tick := tick + 1;
      }
      assert found[..|found|] == found;
      return Ok(confirmed);
    }

    /** `now` is `known` and what locating and confirming as call `t` found beyond it. */
    ghost predicate Discovered(t: nat, known: seq<Peer>, now: seq<Peer>) {
      now == known + match world.locate(t)
                     case Ok(found) => Unknown(Confirmed(world, found, t + 1), known)
                     case Err(_) => []
    }

    /** Merges newly found holders into the known ones; the number added. A holder located twice is added twice. */
    method DiscoverMore() returns (r: Result<nat, DownloadError>)
      modifies this`tick, this`providers
      ensures old(tick) < tick && old(providers) <= providers && Discovered(old(tick), old(providers), providers)
      ensures match world.locate(old(tick))
              case Err(e) => r == Err(e) && providers == old(providers)
              case Ok(found) => r == Ok(|providers| - |old(providers)|)
    {
      var more := LocateAndConfirm();
      if more.Err? {
        return Err(more.error);
      }
      var added;
      providers, added := MergeUnknown(more.value, providers);
      return Ok(added);
    }

    /** The job can carry on to its end: it is not paused, storage works, and `holders` are known and oblige. */
    ghost predicate Steady(holders: seq<Peer>, slips: set<nat>)
      reads this
    {
      && commitment.Some? && Obliging(world, cfg, commitment.value, ranges, holders, resumed, slips)
      && !paused && sink.Works() && store.Keeps()
      && Manned(books.flights, holders) && forall p :: p in holders ==> p in providers
    }

    // ---- the loop -------------------------------------------------------------------------------------

    /** Waiting leaves a healthy job healthy. */
    lemma HealthyLater(was: nat, c: ResourceCommitment)
      requires commitment == Some(c) && was <= tick && Sane(cfg, c, ranges, books, resumed, fetches)
      requires sink.Undisturbed() ==> Staged(sink.buf, books.lens, books.fed)
      requires tracker.Valid() && Timely(world, since, was, tracker.latest, fetches) && Tracked()
      requires totalFailures == Min(books.failed, U64_MAX)
      ensures Healthy()
    {
      TimelyNext(world, since, was, tick, tracker.latest, fetches);
      hide Sane, Staged, SourceTracker.Valid, Timely, Tracked;
    }

    /** The first half of a turn: assign, then see whether the run is over, or blocked until a backoff ends. */
    method Prepare(ghost holders: seq<Peer>, ghost slips: set<nat>)
      returns (r: Option<Result<(), DownloadError>>, blocked: bool)
      requires Healthy() && Lenient(books.failed, |books.lens|, cfg.maxRangeAttempts)
      modifies this`tick, this`books
      ensures Healthy() && books.failed == old(books).failed && Extends(old(books), books)
      ensures paused ==> books == old(books)
      ensures Frugal(books.issued, |books.lens|, cfg.maxRangeAttempts)
      ensures r == if AllDone(books.state) && books.flights == [] then Some(Ok(()))
                   else if totalFailures > Budget(|ranges|, cfg.maxRangeAttempts) then Some(Err(NoProviders)) else None
      ensures blocked <==>
                && !paused && old(books).flights == [] && books.issued == old(books).issued
                && !AllDone(old(books).state) && totalFailures <= Budget(|ranges|, cfg.maxRangeAttempts)
      ensures blocked ==> books.flights == [] && r.None? && tick == old(tick) + 1
      ensures NamesNobody(world.select(old(tick))) ==> books.issued == old(books).issued
      ensures !blocked && r.None? && !paused ==> books.flights != []
      ensures old(tick) <= tick && (AllDone(books.state) <==> AllDone(old(books).state))
      ensures old(Steady(holders, slips)) ==>
                && Steady(holders, slips) && tick == old(tick) + 1 && books.fed == old(books).fed
                && (AllDone(books.state) ==> books.flights == [])
                && (books.flights == [] && !AllDone(books.state) ==>
                      && world.select(old(tick)).ordered == [] && tick in slips && world.locate(tick).Ok?)
    {
      hide Healthy, Frugal, Lenient, Budget, AllDone, Saturated, Obliging, Manned;
      ghost var before := books;
      if !paused {
        Fill();
        if |books.flights| > |before.flights| {
          NamesSomeone(books.flights, |before.flights|, world.select(tick - 1), providers);
        }
        if old(Steady(holders, slips)) {
          FilledSteady(before, holders, slips, tick - 1);
        }
      }
      FrugalNow();
      if AllDone(books.state) && books.flights == [] {
        return Some(Ok(())), false;
      }
      if totalFailures > Budget(|ranges|, cfg.maxRangeAttempts) {
        return Some(Err(NoProviders)), false;
      }
      return None, !paused && books.flights == [] && !AllDone(books.state);
    }

    /** Assigning keeps a steady job steady, with a fetch in flight unless all is done. */
    lemma FilledSteady(before: Books, holders: seq<Peer>, slips: set<nat>, t: nat)
      requires Healthy() && Saturated(books, world.select(t), Limits(cfg)) && before.flights <= books.flights
      requires commitment.Some? && Obliging(world, cfg, commitment.value, ranges, holders, resumed, slips)
      requires Manned(before.flights, holders) && forall p :: p in holders ==> p in providers
      requires forall k :: |before.flights| <= k < |books.flights| ==>
                             Offered(books.flights[k], world.select(t), providers)
      ensures Manned(books.flights, holders) && (AllDone(books.state) ==> books.flights == [])
      ensures books.flights == [] && !AllDone(books.state) ==>
                world.select(t).ordered == [] && t + 1 in slips && world.locate(t + 1).Ok?
    {
      assert Sticks(world.select(t), holders);
      MannedMore(before.flights, books.flights, world.select(t), providers, holders);
      assert Balanced(books, Limits(cfg)) && |books.state| == |ranges|;
      hide Healthy, Saturated, Balanced, Sticks, Manned, Honours;
      if AllDone(books.state) {
        AllHashed(books, Limits(cfg));
      } else if world.select(t).ordered != [] {
        Busy(books, world.select(t), Limits(cfg));
      }
    }

    /** `relocate`: looks for more holders, spending one relocate attempt. */
    method Relocate() returns (r: Result<nat, DownloadError>)
      requires Healthy()
      modifies this`tick, this`providers, this`relocateAttempts
      ensures Healthy() && relocateAttempts == old(relocateAttempts) + 1 && old(tick) <= tick
      ensures r.Ok? ==> |providers| == |old(providers)| + r.value
      ensures old(providers) <= providers && (r.Err? <==> world.locate(old(tick)).Err?)
      ensures r.Err? ==> world.locate(old(tick)) == Err(r.error) && old(tick) < tick
      ensures r.Err? ==> providers == old(providers)
    {
      hide *;
      Parts();
      ghost var c := commitment.value;
      relocateAttempts := relocateAttempts + 1;
      r := DiscoverMore();
      HealthyLater(old(tick), c);
    }

    /** One of the holders `known` was backed off, at a time the job looked since call `t`. */
    ghost predicate SomeoneWaits(known: seq<Peer>, t: nat)
      reads this`tick, tracker
    {
      exists u: nat, p :: t <= u <= tick && p in known && !tracker.IsAvailable(p, world.clock(u))
    }

    /** No known holder is backed off. */
    ghost predicate NobodyWaits()
      reads this`tick, this`providers, tracker
    {
      forall p :: p in providers ==> tracker.IsAvailable(p, world.clock(tick))
    }

    /** Why a turn that began as call `t` may end the run with `e`. */
    ghost predicate Justified(e: DownloadError, t: nat)
      reads this`tick, this`providers, this`fetches, this`totalFailures, this`ranges, tracker
    {
      || (e == NoProviders && (totalFailures > Budget(|ranges|, cfg.maxRangeAttempts) || NobodyWaits()))
      || (exists u: nat :: t <= u < tick && world.locate(u) == Err(e))
      || (e == Cancelled && exists u: nat :: t <= u <= tick && world.event(u).Cancel?)
      || (fetches != [] && Fatal(fetches[|fetches| - 1], e, t))
      || (e == DownloadError.Sink && !sink.Works()) || (e == State && !store.Keeps())
    }

    /** The fetch completed since call `t` and failed for good. */
    static predicate Fatal(f: Fetching, e: DownloadError, t: nat) {
      f.at >= t && f.reply == Err(e) && !e.IsRecoverable()
    }

    /** A holder that waits, and when. */
    lemma Waiter(known: seq<Peer>, t: nat) returns (u: nat, p: Peer)
      requires SomeoneWaits(known, t)
      ensures t <= u <= tick && p in known && !tracker.IsAvailable(p, world.clock(u))
    {
      hide SourceTracker.IsAvailable;
      u, p :| t <= u <= tick && p in known && !tracker.IsAvailable(p, world.clock(u));
    }

    lemma WaitsBy(known: seq<Peer>, t: nat, u: nat, p: Peer)
      requires t <= u <= tick && p in known && !tracker.IsAvailable(p, world.clock(u))
      ensures SomeoneWaits(known, t)
    {
    }

    lemma JustifiedSooner(e: DownloadError, t: nat, t0: nat)
      requires Justified(e, t) && t0 <= t
      ensures Justified(e, t0)
    {
      hide NobodyWaits, Budget;
    }

    lemma OverBudget(t: nat)
      requires totalFailures > Budget(|ranges|, cfg.maxRangeAttempts)
      ensures Justified(NoProviders, t)
    {
    }

    /** Nothing can be scheduled: relocate once per stretch without progress, else wait out the earliest backoff, or
        give up if no holder is backed off. `Ok(true)` means try again at once. */
    method Unblock() returns (r: Result<bool, DownloadError>)
      requires Healthy()
      modifies this`tick, this`providers, this`relocateAttempts, this`relocatedSinceProgress
      ensures Healthy()
      ensures var relocates := !old(relocatedSinceProgress) && old(relocateAttempts) < cfg.maxRelocateAttempts;
              && relocateAttempts == old(relocateAttempts) + (if relocates then 1 else 0)
              && (r == Ok(true) <==> relocates && |providers| > |old(providers)|)
              && relocatedSinceProgress == (old(relocatedSinceProgress) || (relocates && world.locate(old(tick)).Ok?))
              && (r.Err? && r.error != NoProviders ==> relocates)
      ensures old(tick) <= tick
      ensures r == Ok(false) ==> SomeoneWaits(old(providers), old(tick))
      ensures r.Err? ==> Justified(r.error, old(tick))
      ensures world.locate(old(tick)).Ok? && r.Err? ==> r.error == NoProviders && NobodyWaits()
      ensures r == Ok(false) ==> exists p :: p in providers && !tracker.IsAvailable(p, world.clock(tick))
      ensures old(providers) <= providers
      ensures r == Err(NoProviders) ==>
                world.locate(old(tick)).Err? || forall p :: p in providers ==> tracker.IsAvailable(p, world.clock(tick))
    {
      hide Healthy, Sane, Staged, SourceTracker.Valid, SourceTracker.IsAvailable, Sink.Undisturbed, Timely, Tracked;
      if !relocatedSinceProgress && relocateAttempts < cfg.maxRelocateAttempts {
        var added := Relocate();
        if added.Err? {
          assert world.locate(old(tick)) == Err(added.error);
          return Err(added.error);
        }
        Parts();
        relocatedSinceProgress := true;
        StayHealthy(commitment.value);
        if added.value > 0 {
          return Ok(true);
        }
      }
      Parts();
      assert providers == old(providers);
      var wakeup := tracker.EarliestBackoff(providers, world.clock(tick));
      if wakeup.Some? {
        ghost var p :| p in providers && !tracker.IsAvailable(p, world.clock(tick));
        WaitsBy(old(providers), old(tick), tick, p);
      }
      return if wakeup.Some? then Ok(false) else Err(NoProviders);
    }

    /** The second half of a turn: one event. */
    method React(event: Event) returns (r: Option<Result<(), DownloadError>>, ghost kept: Option<Bytes>)
      requires Healthy() && totalFailures <= Budget(|ranges|, cfg.maxRangeAttempts)
      modifies this`tick, this`providers, this`books, this`paused, this`relocatedSinceProgress, this`totalFailures
      modifies this`fetches, sink, store`ops, store`checkpoint, store`saves, tracker
      ensures Spares(fetches, resumed)
      ensures sink.finalized == old(sink.finalized)
      ensures books.issued == old(books).issued && Extends(old(books), books)
      ensures paused == (event.Pause? || (old(paused) && !event.Resume?))
      ensures r.None? && event.Completion? && old(books).flights != [] ==>
                var k := event.which % |old(books).flights|;
                && Lands(old(books), k)
                && books == (if kept.Some? then Accept(old(books), k, kept.value) else Requeue(old(books), k))
                && relocatedSinceProgress == (old(relocatedSinceProgress) && kept.None?)
      ensures event.Completion? && old(books).flights != [] ==>
                var k := event.which % |old(books).flights|;
                && old(books).flights[k].index < |ranges| && commitment.Some?
                && var brought := Brought(world, commitment.value, ranges, old(books).flights[k], old(tick));
                && kept == (if brought.Ok? then Some(brought.value) else None)
                && (r.Some? ==> if brought.Ok? then !sink.Works() || !store.Keeps() else !brought.error.IsRecoverable())
      ensures old(books).flights == [] ==>
                books == old(books) && fetches == old(fetches) && unchanged(tracker) && tick >= old(tick)
      ensures event.Pause? && !old(paused) && store.Works() ==> store.checkpoint == Some(Checkpoint())
      ensures !event.Completion? ==> books == old(books) && relocatedSinceProgress == old(relocatedSinceProgress)
      ensures if event.RefreshDue? && cfg.refreshes && !old(paused)
              then Discovered(old(tick), old(providers), providers) else providers == old(providers)
      ensures event.Cancel? ==> r == Some(Err(Cancelled)) && (store.Works() ==> store.checkpoint == Some(Checkpoint()))
      ensures r.None? ==> Healthy() && Lenient(books.failed, |books.lens|, cfg.maxRangeAttempts)
      ensures r.Some? ==> r.value.Err? && (event.Cancel? || (event.Completion? && old(books).flights != []))
      ensures r.Some? && event == world.event(old(tick)) ==> Justified(r.value.error, old(tick))
      ensures old(tick) <= tick
    {
      hide *;
      StillLenient();
      Parts();
      SameExtends(books);
      NoFault(store);
      ghost var c := commitment.value;
      kept := None;
      match event {
        case Pause =>
          if !paused {
            paused := true;
            var saved := store.Save(Checkpoint());
          }
        case Resume =>
          paused := false;
        case Cancel =>
          var saved := store.Save(Checkpoint());
          CancelJustified(tick);
          return Some(Err(Cancelled)), kept;
        case Completion(which) =>
          if books.flights != [] {
            var done;
            done, kept := HandleResult(which % |books.flights|);
            Extended(old(books), old(books), books);
            if done.Err? {
              FetchJustified(old(tick), done.error);
              return Some(Err(done.error)), kept;
            }
            return None, kept;
          }
        case BackoffElapsed =>
        case RefreshDue =>
          if cfg.refreshes && !paused {
            var added := DiscoverMore();
            HealthyLater(old(tick), c);
            return None, kept;
          }
      }
      StayHealthy(c);
      return None, kept;
    }

    lemma CancelJustified(t: nat)
      ensures t <= tick && world.event(t).Cancel? ==> Justified(Cancelled, t)
    {
    }

    lemma FetchJustified(t: nat, e: DownloadError)
      requires (fetches != [] && Fatal(fetches[|fetches| - 1], e, t))
               || (e == DownloadError.Sink && !sink.Works()) || (e == State && !store.Keeps())
      ensures Justified(e, t)
    {
      hide Fatal;
    }

    /** The second half of a turn, and what it means for a steady job: another range is done, or a slip is spent. */
    method Wake(ghost holders: seq<Peer>, ghost slips: set<nat>) returns (r: Option<Result<(), DownloadError>>)
      requires Healthy() && totalFailures <= Budget(|ranges|, cfg.maxRangeAttempts)
      modifies this`tick, this`providers, this`books, this`paused, this`relocatedSinceProgress, this`totalFailures
      modifies this`fetches, sink, store`ops, store`checkpoint, store`saves, tracker
      ensures Spares(fetches, resumed)
      ensures sink.finalized == old(sink.finalized)
      ensures books.issued == old(books).issued && Extends(old(books), books)
      ensures r.None? ==> Healthy() && Lenient(books.failed, |books.lens|, cfg.maxRangeAttempts)
      ensures r.Some? ==> r.value.Err?
      ensures old(tick) <= tick && old(providers) <= providers
      ensures r.Some? ==> Justified(r.value.error, old(tick))
      ensures old(books).flights == [] ==> books == old(books) && fetches == old(fetches) && unchanged(tracker)
      ensures old(Steady(holders, slips)) ==>
                && r.None? && Steady(holders, slips)
                && (old(books).flights != [] ==> Stepped(old(books), books, old(tick) in slips))
    {
      ghost var steady := Steady(holders, slips);
      var event := world.event(tick);
      if steady {
        BeforeEvent(event, holders, slips);
      }
      ghost var (t, before) := (tick, providers);
      hide *;
      ghost var kept;
      r, kept := React(event);
      Found(t, before);
      if steady {
        KeepSteady(holders, slips);
      }
    }

    /** What an event can do to a steady job's books. */
    lemma BeforeEvent(event: Event, holders: seq<Peer>, slips: set<nat>)
      requires Healthy() && Steady(holders, slips) && event == world.event(tick)
      ensures commitment.Some? && Obliging(world, cfg, commitment.value, ranges, holders, resumed, slips) && !paused
      ensures sink.Works() && store.Keeps() && Manned(books.flights, holders)
      ensures forall p :: p in holders ==> p in providers
      ensures !event.Cancel? && !event.Pause?
      ensures !event.Completion? ==> Stepped(books, books, tick in slips)
      ensures event.Completion? && books.flights != [] ==>
                var k := event.which % |books.flights|;
                && Lands(books, k) && books.flights[k].index < |ranges|
                && var got := Brought(world, commitment.value, ranges, books.flights[k], tick);
                && (got.Err? ==> got.error.IsRecoverable())
                && var after := if got.Ok? then Accept(books, k, got.value) else Requeue(books, k);
                && Stepped(books, after, tick in slips) && Manned(after.flights, holders)
    {
      if event.Completion? && books.flights != [] {
        var k := event.which % |books.flights|;
        FlightLands(cfg, commitment.value, ranges, books, resumed, fetches, k);
        var flight := books.flights[k];
        assert Honours(world, commitment.value, ranges, flight.peer, flight.index, tick, tick in slips);
        var got := Brought(world, commitment.value, ranges, flight, tick);
        HonoursBrings(world, commitment.value, ranges, flight, tick, tick in slips);
        MannedLess(books.flights, k, holders);
        hide Brought, Manned, Stepped, Balanced, Lands;
        if got.Ok? {
          AcceptSteps(books, Limits(cfg), k, got.value, tick in slips);
        } else {
          RequeueSteps(books, k);
        }
      }
    }

    lemma Found(t: nat, before: seq<Peer>)
      requires providers == before || Discovered(t, before, providers)
      ensures before <= providers && forall p :: p in before ==> p in providers
    {
    }

    lemma SteadyParts(holders: seq<Peer>, slips: set<nat>)
      requires Steady(holders, slips)
      ensures commitment.Some? && Obliging(world, cfg, commitment.value, ranges, holders, resumed, slips)
      ensures !paused && sink.Works() && store.Keeps() && Manned(books.flights, holders)
      ensures forall p :: p in holders ==> p in providers
    {
      hide Obliging, Manned;
    }

    lemma KeepSteady(holders: seq<Peer>, slips: set<nat>)
      requires commitment.Some? && Obliging(world, cfg, commitment.value, ranges, holders, resumed, slips)
      requires !paused && sink.Works() && store.Keeps()
      requires Manned(books.flights, holders) && forall p :: p in holders ==> p in providers
      ensures Steady(holders, slips)
    {
      hide Obliging, Manned;
    }

    /** One more failure is within the allowance as long as the budget is not exceeded. */
    lemma StillLenient()
      requires Healthy() && totalFailures <= Budget(|ranges|, cfg.maxRangeAttempts)
      ensures |books.lens| == |ranges|
      ensures forall failed: nat :: failed <= books.failed + 1 ==> Lenient(failed, |books.lens|, cfg.maxRangeAttempts)
    {
    }

    lemma FrugalNow()
      requires Healthy() && Lenient(books.failed, |books.lens|, cfg.maxRangeAttempts)
      ensures Frugal(books.issued, |books.lens|, cfg.maxRangeAttempts)
    {
      IssuedBound(books, Limits(cfg));
      hide Healthy, Balanced;
    }

    /** One turn of the loop. */
    method Turn(ghost holders: seq<Peer>, ghost slips: set<nat>) returns (r: Option<Result<(), DownloadError>>)
      requires Healthy() && Lenient(books.failed, |books.lens|, cfg.maxRangeAttempts)
      modifies this`tick, this`providers, this`books, this`paused, this`relocateAttempts
      modifies this`relocatedSinceProgress, this`totalFailures, this`fetches
      modifies sink, store`ops, store`checkpoint, store`saves, tracker
      ensures Spares(fetches, resumed)
      ensures sink.finalized == old(sink.finalized)
      ensures Extends(old(books), books) && (old(paused) ==> books.issued == old(books).issued)
      ensures relocateAttempts <= old(relocateAttempts) || relocateAttempts <= cfg.maxRelocateAttempts
      ensures Frugal(books.issued, |books.lens|, cfg.maxRangeAttempts)
      ensures r.None? ==> Healthy() && Lenient(books.failed, |books.lens|, cfg.maxRangeAttempts)
      ensures r.Some? && r.value.Ok? ==> Healthy() && AllDone(books.state)
      ensures r.Some? && r.value.Err? ==> Justified(r.value.error, old(tick))
      ensures old(tick) <= tick
      // what a turn does with nothing in flight and no one to fetch from
      ensures var blocked := !old(paused) && old(books).flights == [] && books.issued == old(books).issued
                             && !AllDone(old(books).state)
                             && old(totalFailures) <= Budget(|ranges|, cfg.maxRangeAttempts);
              var relocates := blocked && !old(relocatedSinceProgress)
                               && old(relocateAttempts) < cfg.maxRelocateAttempts;
              && relocateAttempts == old(relocateAttempts) + (if relocates then 1 else 0)
              && (blocked && r.None? ==>
                    (relocates && |providers| > |old(providers)|) || SomeoneWaits(old(providers), old(tick) + 1))
              && (blocked ==> (r.Some? ==> r.value.Err?) && tracker.health == old(tracker.health))
              && old(providers) <= providers
      ensures NamesNobody(world.select(old(tick))) ==> books.issued == old(books).issued
      // what it does for a steady job
      ensures old(Steady(holders, slips)) && old(books).failed <= |slips| ==>
                || r == Some(Ok(()))
                || (&& r.None? && Steady(holders, slips) && |old(books).fed| < |books.lens| && old(tick) < tick
                    && Stepped(old(books), books, old(tick) + 1 in slips))
                || (r == Some(Err(NoProviders)) && GivenUp(holders, slips, old(tick)) && GaveUp(holders, slips))
    {
      hide *;
      ghost var steady := Steady(holders, slips) && books.failed <= |slips|;
      if steady {
        AffordsSlips(holders, slips);
      }
      Parts();
      TimelyLogged(world, since, tick, tracker.latest, fetches);
      var over, blocked := Prepare(holders, slips);
      Parts();
      if over.Some? {
        OverBudgetIf(old(tick));
        return over;
      }
      ghost var before := books;
      if steady {
        SteadyParts(holders, slips);
        Unfinished();
        SameSteps(old(books), before);
      }
      r := Await(blocked, old(tick), holders, slips);
      Extended(old(books), before, books);
      if steady && r.Some? {
        IsGivenUp(holders, slips, old(tick), old(fetches));
      }
    }

    lemma OverBudgetIf(t: nat)
      ensures totalFailures > Budget(|ranges|, cfg.maxRangeAttempts) ==> Justified(NoProviders, t)
    {
      hide Budget;
    }

    /** A steady job that found no one to fetch from as call `t`, and then no holder backed off: it gave up although
        every known holder had become usable. */
    ghost predicate GivenUp(holders: seq<Peer>, slips: set<nat>, t: nat)
      reads this, sink, tracker
    {
      && Healthy() && NobodyWaits() && t < tick && t + 1 in slips && world.select(t).ordered == []
      && (forall k :: 0 <= k < |fetches| ==> fetches[k].at < t) && (forall p :: p in holders ==> p in providers)
    }

    /** It did so at some turn. */
    ghost predicate GaveUp(holders: seq<Peer>, slips: set<nat>)
      reads this, sink, tracker
    {
      exists t: nat :: GivenUp(holders, slips, t)
    }

    lemma IsGivenUp(holders: seq<Peer>, slips: set<nat>, t: nat, log: seq<Fetching>)
      requires Healthy() && NobodyWaits() && t < tick && t + 1 in slips && world.select(t).ordered == []
      requires fetches == log && world.Logged(log, since, t) && Steady(holders, slips)
      ensures GivenUp(holders, slips, t) && GaveUp(holders, slips)
    {
      hide Healthy, NobodyWaits, Obliging, Manned;
    }

    /** The rest of a turn, begun as call `t`, that is not over: get unblocked if need be, then wait for an event. */
    method Await(blocked: bool, ghost t: nat, ghost holders: seq<Peer>, ghost slips: set<nat>)
      returns (r: Option<Result<(), DownloadError>>)
      requires Healthy() && totalFailures <= Budget(|ranges|, cfg.maxRangeAttempts)
      requires t <= tick && (blocked ==> books.flights == [])
      modifies this`tick, this`providers, this`books, this`paused, this`relocateAttempts
      modifies this`relocatedSinceProgress, this`totalFailures, this`fetches
      modifies sink, store`ops, store`checkpoint, store`saves, tracker
      ensures sink.finalized == old(sink.finalized)
      ensures books.issued == old(books).issued && Extends(old(books), books)
      ensures r.None? ==> Healthy() && Lenient(books.failed, |books.lens|, cfg.maxRangeAttempts)
      ensures r.Some? ==> r.value.Err? && Justified(r.value.error, t)
      ensures old(tick) <= tick && Spares(fetches, resumed)
      ensures var relocates := blocked && !old(relocatedSinceProgress)
                               && old(relocateAttempts) < cfg.maxRelocateAttempts;
              && relocateAttempts == old(relocateAttempts) + (if relocates then 1 else 0)
              && (blocked && r.None? ==>
                    (relocates && |providers| > |old(providers)|) || SomeoneWaits(old(providers), old(tick)))
              && (blocked ==> tracker.health == old(tracker.health)) && old(providers) <= providers
      ensures !blocked && old(Steady(holders, slips)) && old(books).flights != [] ==>
                r.None? && Steady(holders, slips) && Stepped(old(books), books, old(tick) in slips)
      ensures blocked && old(Steady(holders, slips)) && world.locate(old(tick)).Ok? ==>
                || (r.None? && Steady(holders, slips) && books == old(books))
                || (&& r == Some(Err(NoProviders)) && NobodyWaits() && Healthy() && Steady(holders, slips)
                    && fetches == old(fetches))
    {
      hide *;
      SameExtends(books);
      Parts();
      ghost var steady := Steady(holders, slips);
      ghost var (u, p) := (0, "");
      if blocked {
        if steady {
          SteadyParts(holders, slips);
        }
        var retry := Unblock();
        Parts();
        if steady {
          KeepSteady(holders, slips);
        }
        if retry.Err? {
          JustifiedSooner(retry.error, old(tick), t);
          return Some(Err(retry.error));
        }
        if retry.value {
          LenientNow();
          return None;
        }
        u, p := Waiter(old(providers), old(tick));
      }
      ghost var now := tick;
      r := Wake(holders, slips);
      if blocked {
        WaitsBy(old(providers), old(tick), u, p);
      }
      if r.Some? {
        JustifiedSooner(r.value.error, now, t);
      }
    }

    /** The failures of slips alone never exceed the budget. */
    lemma AffordsSlips(holders: seq<Peer>, slips: set<nat>)
      requires Healthy() && Steady(holders, slips) && books.failed <= |slips|
      ensures totalFailures <= Budget(|ranges|, cfg.maxRangeAttempts) && ranges != []
    {
      hide Balanced, Sourced, PlannedFrom, Budget, Manned, Honours, Sticks;
    }

    lemma Unfinished()
      requires Healthy() && ranges != [] && !AllDone(books.state)
      ensures |books.fed| < |books.lens|
    {
      FedCount(books, Limits(cfg));
    }

    static lemma SameSteps(b: Books, before: Books)
      requires b.fed == before.fed && b.failed == before.failed
      ensures Stepped(b, before, true)
      ensures forall b': Books, slip: bool :: Stepped(before, b', slip) ==> Stepped(b, b', slip)
    {
    }

    lemma LenientNow()
      requires Healthy() && totalFailures <= Budget(|ranges|, cfg.maxRangeAttempts)
      ensures Lenient(books.failed, |books.lens|, cfg.maxRangeAttempts)
    {
      StillLenient();
    }

    /** The first `horizon` turns of any run, `None` if it is still going on then. */
    method ScheduleLoop(horizon: nat, ghost holders: seq<Peer>, ghost slips: set<nat>)
      returns (r: Option<Result<(), DownloadError>>)
      requires Healthy() && Lenient(books.failed, |books.lens|, cfg.maxRangeAttempts)
      requires Frugal(books.issued, |books.lens|, cfg.maxRangeAttempts)
      modifies this`tick, this`providers, this`books, this`paused, this`relocateAttempts
      modifies this`relocatedSinceProgress, this`totalFailures, this`fetches
      modifies sink, store`ops, store`checkpoint, store`saves, tracker
      ensures Spares(fetches, resumed)
      ensures sink.finalized == old(sink.finalized)
      ensures Frugal(books.issued, |books.lens|, cfg.maxRangeAttempts) && Extends(old(books), books)
      ensures relocateAttempts <= old(relocateAttempts) || relocateAttempts <= cfg.maxRelocateAttempts
      ensures r.None? ==> Healthy()
      ensures r.Some? && r.value.Ok? ==> Healthy() && AllDone(books.state)
      ensures r.Some? && r.value.Err? ==> Justified(r.value.error, old(tick))
      ensures old(Steady(holders, slips)) && old(books).failed == 0 && horizon > |old(books).lens| + |slips| ==>
                r == Some(Ok(())) || (r == Some(Err(NoProviders)) && GaveUp(holders, slips))
    {
      hide *;
      ghost var (start, t, attempts) := (books, tick, relocateAttempts);
      ghost var steady := Steady(holders, slips) && books.failed == 0;
      ghost var spent: set<nat> := {};
      Sets(steady, holders, slips);
      r := None;
      for turn := 0 to horizon
        invariant r.None? && sink.finalized == old(sink.finalized)
        invariant Going(start, t, attempts, turn, steady, holders, slips, spent)
      {
        r, spent := Go(start, t, attempts, turn, steady, holders, slips, spent);
        if r.Some? {
          return;
        }
      }
      GoneFor(start, t, attempts, horizon, steady, holders, slips, spent);
    }

    /** What holds after `turn` turns of a loop that began with the books `start` as call `t`. */
    ghost predicate Going(start: Books, t: nat, attempts: nat, turn: nat, steady: bool, holders: seq<Peer>,
                          slips: set<nat>, spent: set<nat>)
      reads this, sink, tracker
    {
      && Healthy() && Lenient(books.failed, |books.lens|, cfg.maxRangeAttempts)
      && Gone(start, t, attempts)
      && (steady ==> Steady(holders, slips) && Paced(turn, books, spent, slips, tick))
    }

    /** What holds however the loop goes on or ends. */
    ghost predicate Gone(start: Books, t: nat, attempts: nat)
      reads this`books, this`relocateAttempts, this`fetches, this`resumed, this`tick
    {
      && Frugal(books.issued, |books.lens|, cfg.maxRangeAttempts) && Extends(start, books) && books.lens == start.lens
      && (relocateAttempts <= attempts || relocateAttempts <= cfg.maxRelocateAttempts)
      && Spares(fetches, resumed) && t <= tick
    }

    lemma Sets(steady: bool, holders: seq<Peer>, slips: set<nat>)
      requires Healthy() && Lenient(books.failed, |books.lens|, cfg.maxRangeAttempts)
      requires Frugal(books.issued, |books.lens|, cfg.maxRangeAttempts)
      requires steady ==> Steady(holders, slips) && books.failed == 0
      ensures Going(books, tick, relocateAttempts, 0, steady, holders, slips, {})
    {
      Parts();
      hide Healthy, Steady, Spares, Lenient, Frugal;
    }

    lemma GoneFor(start: Books, t: nat, attempts: nat, turn: nat, steady: bool, holders: seq<Peer>, slips: set<nat>,
                  spent: set<nat>)
      requires Going(start, t, attempts, turn, steady, holders, slips, spent)
      ensures Gone(start, t, attempts) && Healthy() && (steady ==> turn <= |start.lens| + |slips|)
      ensures Frugal(books.issued, |books.lens|, cfg.maxRangeAttempts) && Extends(start, books)
      ensures Spares(fetches, resumed)
      ensures relocateAttempts <= attempts || relocateAttempts <= cfg.maxRelocateAttempts
    {
      if steady {
        Late(turn, books, spent, slips, tick);
      }
      hide Healthy, Steady, Spares, Lenient, Frugal, Extends, Paced;
    }

    /** One more turn of the loop. */
    method Go(ghost start: Books, ghost t: nat, ghost attempts: nat, ghost turn: nat, ghost steady: bool,
              ghost holders: seq<Peer>, ghost slips: set<nat>, ghost spent: set<nat>)
      returns (r: Option<Result<(), DownloadError>>, ghost spent': set<nat>)
      requires Going(start, t, attempts, turn, steady, holders, slips, spent)
      modifies this`tick, this`providers, this`books, this`paused, this`relocateAttempts
      modifies this`relocatedSinceProgress, this`totalFailures, this`fetches
      modifies sink, store`ops, store`checkpoint, store`saves, tracker
      ensures sink.finalized == old(sink.finalized)
      ensures r.None? ==> Going(start, t, attempts, turn + 1, steady, holders, slips, spent')
      ensures r.Some? ==>
                && Frugal(books.issued, |books.lens|, cfg.maxRangeAttempts) && Extends(start, books)
                && (relocateAttempts <= attempts || relocateAttempts <= cfg.maxRelocateAttempts)
                && Spares(fetches, resumed)
      ensures r.Some? && r.value.Ok? ==> Healthy() && AllDone(books.state)
      ensures r.Some? && r.value.Err? ==> Justified(r.value.error, t)
      ensures steady && r.Some? ==> r == Some(Ok(())) || (r == Some(Err(NoProviders)) && GaveUp(holders, slips))
    {
      hide *;
      GoingParts(start, t, attempts, turn, steady, holders, slips, spent);
      ghost var (before, now) := (books, tick);
      spent' := spent;
      if steady {
        SlipsLeft(turn, books, spent, slips, tick);
      }
      r := Turn(holders, slips);
      Extended(start, before, books);
      if r.Some? && r.value.Err? {
        JustifiedSooner(r.value.error, now, t);
      }
      if r.None? {
        if steady {
          spent' := OneMoreTurn(turn, before, books, spent, slips, now, tick);
        }
        StillGoing(start, t, attempts, turn + 1, steady, holders, slips, spent');
      }
    }

    lemma GoingParts(start: Books, t: nat, attempts: nat, turn: nat, steady: bool, holders: seq<Peer>, slips: set<nat>,
                     spent: set<nat>)
      requires Going(start, t, attempts, turn, steady, holders, slips, spent)
      ensures Healthy() && Lenient(books.failed, |books.lens|, cfg.maxRangeAttempts)
      ensures Extends(start, books) && books.lens == start.lens && t <= tick
      ensures relocateAttempts <= attempts || relocateAttempts <= cfg.maxRelocateAttempts
      ensures steady ==> Steady(holders, slips) && Paced(turn, books, spent, slips, tick)
    {
      hide Healthy, Steady, Spares, Lenient, Frugal, Extends, Paced;
    }

    lemma StillGoing(start: Books, t: nat, attempts: nat, turn: nat, steady: bool, holders: seq<Peer>, slips: set<nat>,
                     spent: set<nat>)
      requires Healthy() && Lenient(books.failed, |books.lens|, cfg.maxRangeAttempts)
      requires Frugal(books.issued, |books.lens|, cfg.maxRangeAttempts) && Spares(fetches, resumed)
      requires Extends(start, books) && books.lens == start.lens && t <= tick
      requires relocateAttempts <= attempts || relocateAttempts <= cfg.maxRelocateAttempts
      requires steady ==> Steady(holders, slips) && Paced(turn, books, spent, slips, tick)
      ensures Going(start, t, attempts, turn, steady, holders, slips, spent)
    {
      hide Healthy, Steady, Spares, Lenient, Frugal, Extends, Paced;
    }

    // ---- before and after the loop ----------------------------------------------------------------------

    /** Feeds every checkpointed range back from staging; one that cannot be read or does not verify is to be fetched
        again, as is every one when there is no hasher to bind it. */
    method Rehydrate(c: ResourceCommitment, b0: Books) returns (b: Books, ghost back: set<nat>)
      requires PlannedFrom(c, ranges) && b0.lens == Lengths(ranges) && Rehydrating(b0, 0)
      modifies sink
      ensures sink.finalized == old(sink.finalized)
      ensures b.lens == b0.lens && Rehydrating(b, |b.lens|) && (b.hashed.Some? <==> b0.hashed.Some?)
      ensures sink.Undisturbed() ==> Staged(sink.buf, b.lens, b.fed)
      ensures back == b.fed.Keys && (b.hashed.None? ==> back == {})
      ensures back <= b0.done
      ensures sink.Works() && b0.hashed.Some? ==> ReadBack(ranges, b0.done, |old(sink.buf)|, back)
    {
      hide Rehydrating, Lengths, PlannedFrom, VerifyRange, Staged, Keep, Drop, Offset, ReadBack;
      NoneReadBack(b0.done, |sink.buf|);
      assert ranges[..0] == [];
      b, back := b0, {};
      NoneRehydrated(b, sink.buf);
      for i := 0 to |ranges|
        invariant sink.finalized == old(sink.finalized)
        invariant b.lens == b0.lens && Rehydrating(b, i) && (b.hashed.Some? <==> b0.hashed.Some?)
        invariant sink.Undisturbed() ==> Staged(sink.buf, b.lens, b.fed)
        invariant back == b.fed.Keys && (b.hashed.None? ==> back == {})
        invariant back <= b0.done && b.done <= b0.done
        invariant forall j: nat :: i <= j ==> (j in b.done <==> j in b0.done)
        invariant sink.Works() ==> sink.buf == old(sink.buf)
        invariant sink.Works() && b0.hashed.Some? ==> ReadBack(ranges[..i], b0.done, |old(sink.buf)|, back)
        invariant forall j :: j in back ==> j < i
      {
        ghost var before := back;
        RangeToRehydrate(c, ranges, b, i);
        if b.state[i].Done? {
          var staged: Option<Bytes> := None;
          if b.hashed.Some? {
            staged := sink.ReadAt(ranges[i].offset, ranges[i].length);
          }
          if staged.Some? && VerifyRange(c, ranges[i].chunkStart, ranges[i].length, staged.value) {
            KeepRehydrates(b, i, staged.value);
            KeptFed(b, i, staged.value);
            if sink.Undisturbed() {
              KeptStaged(sink.buf, b, i, staged.value);
            }
            b, back := Keep(b, i, staged.value), back + {i};
          } else {
            DropRehydrates(b, i);
            DroppedFed(b, i);
            b := Drop(b, i);
          }
        } else {
          SkipRehydrates(b, i);
        }
        if sink.Works() && b.hashed.Some? {
          OneMoreReadBack(ranges, b0.done, |sink.buf|, before, back, i);
        }
      }
      assert ranges[..|ranges|] == ranges;
    }

    /** Drops the done ranges of a checkpoint made for another layout, and what it staged. */
    method DiscardBytesStagedForAnotherPlan(planned: seq<nat>)
      modifies this`resume, sink, store`ops, store`checkpoint, store`saves
      ensures sink.finalized == old(sink.finalized)
      ensures var foreign := old(resume).chunkLens != [] && old(resume).chunkLens != planned;
              && resume == (if foreign then old(resume).(doneRanges := {}) else old(resume))
              && (foreign && sink.Works() ==> sink.buf == []) && (foreign && store.Works() ==> store.checkpoint == None)
              && (!foreign ==> sink.buf == old(sink.buf) && store.checkpoint == old(store.checkpoint))
    {
      if resume.chunkLens == [] || resume.chunkLens == planned {
        return;
      }
      resume := resume.(doneRanges := {});
      var cleared := store.Clear();
      var shortened := sink.Truncate(0);
    }

    /** Decides whether one holder's declared metadata may become the layout of the whole resource. */
    method AdoptLayout(meta: RangeMeta) returns (r: Option<ResourceCommitment>)
      ensures r.Some? <==> Adoptable(meta, world.contentRoot, cfg.maxResourceSize)
      ensures r.Some? ==>
                && r.value.Valid() && r.value.root == meta.root && r.value.inclusionProof == meta.inclusionProof
                && Some(r.value.totalLength) == meta.totalLength && Some(r.value.layout.chunkLens) == meta.chunkLens
    {
      if world.contentRoot.Some? {
        if meta.root.None? || meta.root.value != world.contentRoot.value {
          return None;
        }
      }
      if meta.totalLength.None? || meta.chunkLens.None? {
        return None;
      }
      if meta.chunkCount.Some? && meta.chunkCount.value != |meta.chunkLens.value| {
        return None;
      }
      var built := FromFirstFrameBounded(meta.totalLength.value, meta.chunkLens.value, meta.root, meta.inclusionProof,
                                         cfg.maxResourceSize);
      return if built.Ok? then Some(built.value) else None;
    }

    /** Probes the holders in discovery order; the first whose layout is adoptable fixes the commitment. */
    method EstablishCommitment() returns (r: Result<(), DownloadError>)
      modifies this`tick, this`commitment
      ensures old(tick) <= tick
      ensures match FirstSeed(world, cfg.maxResourceSize, providers, 0, old(tick))
              case None => r == Err(MetadataProbeFailed) && commitment == old(commitment)
              case Some(meta) =>
                && r.Ok? && commitment.Some? && commitment.value.Valid()
                && Some(commitment.value.layout.chunkLens) == meta.chunkLens
                && Some(commitment.value.totalLength) == meta.totalLength
                && commitment.value.root == meta.root && commitment.value.inclusionProof == meta.inclusionProof
      ensures r.Ok? ==>
                && commitment.value.totalLength <= cfg.maxResourceSize
                && (world.contentRoot.Some? ==> commitment.value.root == world.contentRoot)
    {
      ghost var seed := FirstSeed(world, cfg.maxResourceSize, providers, 0, tick);
      for i := 0 to |providers|
        invariant old(tick) <= tick && commitment == old(commitment)
        invariant FirstSeed(world, cfg.maxResourceSize, providers, i, tick) == seed
      {
        var fetched := world.probe(tick, providers[i]);
        tick := tick + 1;
        if fetched.Ok? {
          var adopted := AdoptLayout(fetched.value.meta);
          if adopted.Some? {
            commitment := adopted;
            return Ok(());
          }
        }
      }
      return Err(MetadataProbeFailed);
    }

    /** What a finished run has assembled: every range was delivered by one of its fetches, or read back. */
    ghost predicate Made(c: ResourceCommitment, blob: Bytes)
      reads this`ranges, this`since, this`tick, this`fetches, this`books, this`resumed
    {
      && |blob| == c.totalLength && PlannedFrom(c, ranges)
      && world.Logged(fetches, since, tick) && |fetches| <= books.issued && Spares(fetches, resumed)
      && (forall i: nat :: i < |ranges| && i !in resumed ==> PartDelivered(c, fetches, ranges[i], i, blob))
      && (!cfg.verifyWholeResource ==> resumed == {})
    }

    /** What a successful run has promoted. */
    ghost predicate Delivers(c: ResourceCommitment, blob: Bytes)
      reads this`ranges, this`since, this`tick, this`fetches, this`books, this`resumed
    {
      && Made(c, blob)
      && (cfg.verifyWholeResource ==> world.proof(world.sha(blob), c.inclusionProof, c.root))
    }

    /** The ranges are the greedy plan of the committed layout. */
    ghost predicate Planned()
      reads this`commitment, this`ranges
    {
      && commitment.Some? && PlannedFrom(commitment.value, ranges)
      && Packed(ranges, commitment.value.layout.chunkLens, Max(cfg.window, 1))
    }

    /** If the checkpoint was of the committed layout, and storage works, every intact range of it was kept. */
    ghost predicate RestoredFrom(state: DownloadState, size: nat)
      reads this`commitment, this`ranges, this`resumed
    {
      commitment.Some? && state.chunkLens == commitment.value.layout.chunkLens ==>
        sink.Works() && cfg.verifyWholeResource ==> ReadBack(ranges, state.doneRanges, size, resumed)
    }

    lemma IsRestored(c: ResourceCommitment, state: DownloadState, size: nat)
      requires commitment == Some(c)
      requires state.chunkLens == c.layout.chunkLens && sink.Works() && cfg.verifyWholeResource ==>
                 ReadBack(ranges, state.doneRanges, size, resumed)
      ensures RestoredFrom(state, size)
    {
      hide ReadBack;
    }

    /** The proof refuses the hash of `blob`. */
    ghost predicate Refused(blob: Bytes)
      reads this`commitment
    {
      && cfg.verifyWholeResource && commitment.Some?
      && !world.proof(world.sha(blob), commitment.value.inclusionProof, commitment.value.root)
    }

    /** The whole-resource backstop, then promotion; a refusal by either discards checkpoint and staging. */
    method Finish() returns (r: Result<nat, DownloadError>, ghost blob: Bytes)
      requires Healthy() && AllDone(books.state)
      modifies sink, store`ops, store`checkpoint, store`saves
      ensures r.Ok? ==>
                && r.value == commitment.value.totalLength && Delivers(commitment.value, blob)
                && sink.finalized && (sink.Undisturbed() ==> sink.buf == blob)
      ensures r.Err? ==>
                && sink.finalized == old(sink.finalized)
                && (sink.Works() ==> sink.buf == []) && (store.Works() ==> store.checkpoint == None)
      ensures Made(commitment.value, blob)
      ensures sink.Works() ==> (r.Err? <==> Refused(blob))
    {
      hide *;
      blob := Assembled();
      var c := commitment.value;
      Judged(c, blob);
      if books.hashed.Some? {
        var hasher := books.hashed.value;
        if !VerifyResourceLeaf(world.proof, c, world.sha(hasher.absorbed), hasher.nextOffset) {
          DiscardUnverifiableAssembly();
          return Err(Verify), blob;
        }
      }
      var promoted := sink.PromoteVerified(c.totalLength);
      if promoted.Err? {
        DiscardUnverifiableAssembly();
        return Err(promoted.error), blob;
      }
      var cleared := store.Clear();
      return Ok(c.totalLength), blob;
    }

    method DiscardUnverifiableAssembly()
      modifies sink, store`ops, store`checkpoint, store`saves
      ensures sink.finalized == old(sink.finalized)
      ensures (sink.Works() ==> sink.buf == []) && (store.Works() ==> store.checkpoint == None)
    {
      var cleared := store.Clear();
      var shortened := sink.Truncate(0);
    }

    /** What the finished ranges add up to. */
    lemma Assembled() returns (blob: Bytes)
      requires Healthy() && AllDone(books.state)
      ensures commitment.Some? && Made(commitment.value, blob) && |blob| == commitment.value.totalLength <= U64_MAX
      ensures books.hashed.Some? <==> cfg.verifyWholeResource
      ensures books.hashed.Some? ==>
                books.hashed.value.absorbed == blob && books.hashed.value.nextOffset == commitment.value.totalLength
      ensures sink.Undisturbed() ==> |blob| <= |sink.buf| && sink.buf[..|blob|] == blob
    {
      Parts();
      var c := commitment.value;
      hide Sane, PlannedFrom, PartDelivered, Staged, World.Logged, Sink.Undisturbed, SourceTracker.Valid, Healthy;
      blob := AssembledFrom(cfg, c, ranges, books, resumed, fetches);
      if sink.Undisturbed() {
        StagedJoins(sink.buf, books.lens, books.fed, |books.lens|);
      }
    }

    /** How the backstop judges it. */
    lemma Judged(c: ResourceCommitment, blob: Bytes)
      requires commitment == Some(c) && Made(c, blob) && (books.hashed.Some? <==> cfg.verifyWholeResource)
      requires books.hashed.Some? ==>
                 books.hashed.value.absorbed == blob && books.hashed.value.nextOffset == c.totalLength
      ensures if books.hashed.None? then !Refused(blob)
              else
                var hasher := books.hashed.value;
                Refused(blob) <==> !VerifyResourceLeaf(world.proof, c, world.sha(hasher.absorbed), hasher.nextOffset)
      ensures !Refused(blob) ==> Delivers(c, blob)
      ensures sink.Works() ==> sink.Undisturbed()
    {
      hide Made, Sink.Undisturbed;
    }

    /** A commitment is bound to the requested root and the size limit. */
    predicate Bound(c: Option<ResourceCommitment>) {
      c.Some? ==>
        && c.value.totalLength <= cfg.maxResourceSize
        && (world.contentRoot.Some? ==> c.value.root == world.contentRoot)
    }

    /** Before anything is fetched: holders, commitment, plan, and whatever the checkpoint's staging is worth. */
    method Begin() returns (r: Result<(), DownloadError>)
      requires commitment.Some? ==> commitment.value.Valid()
      requires tracker.Valid() && world.ClockRuns() && tracker.latest <= world.clock(tick)
      requires totalFailures == 0 && books.issued == 0
      modifies this`tick, this`providers, this`commitment, this`ranges, this`resume, this`books, this`resumed
      modifies this`since, this`fetches, this`records, sink, store`ops, store`checkpoint, store`saves
      ensures sink.finalized == old(sink.finalized) && books.issued == 0 && since == old(tick)
      ensures r.Ok? ==> Healthy() && books.failed == 0 && |books.lens| == |ranges|
      ensures r.Ok? ==> commitment.Some? && providers == HoldersAt(world, old(tick)) && books.flights == []
      ensures world.downloadable && HoldersAt(world, old(tick)) != [] && store.Keeps() ==> (r.Ok? <==> commitment.Some?)
      ensures old(commitment).None? ==>
                Bound(commitment) && Seeded(commitment, SeedAt(world, cfg.maxResourceSize, old(tick)))
      ensures old(commitment).Some? ==> commitment == old(commitment)
      ensures resumed <= old(resume).doneRanges && Spares(fetches, resumed)
      ensures r.Ok? ==> Planned() && RestoredFrom(old(resume), |old(sink.buf)|)
      ensures records == tracker.health && (r.Ok? ==> books.fed.Keys == resumed)
      ensures r.Ok? && old(commitment).Some? && world.locate(old(tick)).Ok? ==>
                tick == old(tick) + 1 + |world.locate(old(tick)).value|
    {
      hide *;
      since, fetches, resumed, records := tick, [], {}, tracker.health;
      NothingToSpare(fetches, resumed);
      var found := Discover();
      if found.Err? {
        return Err(found.error);
      }
      r := PlanAgainst(commitment.value);
    }

    /** Drops what is staged for another layout, checkpoints the commitment, and plans. */
    method PlanAgainst(c: ResourceCommitment) returns (r: Result<(), DownloadError>)
      requires commitment == Some(c) && c.Valid() && totalFailures == 0 && books.issued == 0
      requires fetches == [] && records == tracker.health
      requires tracker.Valid() && world.ClockRuns() && tracker.latest <= world.clock(since) && since <= tick
      modifies this`ranges, this`resume, this`books, this`resumed, sink, store`ops, store`checkpoint, store`saves
      ensures sink.finalized == old(sink.finalized) && books.issued == 0
      ensures r.Ok? ==> Healthy() && books.failed == 0 && |books.lens| == |ranges| && books.flights == []
      ensures r.Ok? ==> Planned()
      ensures resumed <= old(resume).doneRanges + old(resumed)
      ensures r.Ok? ==> RestoredFrom(old(resume), |old(sink.buf)|) && books.fed.Keys == resumed
      ensures Spares(fetches, resumed)
      ensures store.Keeps() ==> r.Ok?
    {
      hide *;
      NoFault(store);
      NothingToSpare(fetches, resumed);
      DiscardBytesStagedForAnotherPlan(c.layout.chunkLens);
      resume := resume.(totalLength := c.totalLength, chunkLens := c.layout.chunkLens, root := c.root,
                        inclusionProof := c.inclusionProof);
      var saved := store.Save(resume);
      if !saved {
        return Err(State);
      }
      PlanAndRehydrate(c);
      IsRestored(c, old(resume), |old(sink.buf)|);
      NothingToSpare(fetches, resumed);
      r := Ok(());
    }

    /** Finds holders and, unless the checkpoint brought one, a commitment. */
    method Discover() returns (r: Result<(), DownloadError>)
      requires commitment.Some? ==> commitment.value.Valid()
      modifies this`tick, this`providers, this`commitment
      ensures old(tick) <= tick
      ensures r.Ok? ==> commitment.Some? && commitment.value.Valid() && providers != [] && world.downloadable
      ensures r.Ok? ==> providers == HoldersAt(world, old(tick))
      ensures world.downloadable && HoldersAt(world, old(tick)) != [] ==> (r.Ok? <==> commitment.Some?)
      ensures old(commitment).Some? ==> commitment == old(commitment)
      ensures old(commitment).None? ==>
                Bound(commitment) && Seeded(commitment, SeedAt(world, cfg.maxResourceSize, old(tick)))
      ensures r.Ok? && old(commitment).Some? && world.locate(old(tick)).Ok? ==>
                tick == old(tick) + 1 + |world.locate(old(tick)).value|
    {
      if !world.downloadable {
        return Err(NotDownloadable);
      }
      var located := LocateAndConfirm();
      if located.Err? {
        return Err(located.error);
      }
      providers := located.value;
      if providers == [] {
        return Err(NotFound);
      }
      if commitment.None? {
        var established := EstablishCommitment();
        if established.Err? {
          return Err(established.error);
        }
      }
      return Ok(());
    }

    lemma Rehydrated(c: ResourceCommitment)
      requires commitment == Some(c) && PlannedFrom(c, ranges)
      requires Packed(ranges, c.layout.chunkLens, Max(cfg.window, 1))
      requires Sane(cfg, c, ranges, books, resumed, []) && fetches == [] && totalFailures == books.failed == 0
      requires records == tracker.health
      requires sink.Undisturbed() ==> Staged(sink.buf, books.lens, books.fed)
      requires tracker.Valid() && world.ClockRuns() && tracker.latest <= world.clock(since) && since <= tick
      ensures Healthy() && Planned()
    {
      TimelyAt(world, since, tick, tracker.latest);
      NothingRecorded(world, c, ranges, tracker.health, tracker.base, tracker.max);
      hide Reflects, Sane, PlannedFrom, Packed, Staged, SourceTracker.Valid, Sink.Undisturbed, Timely, World.ClockRuns;
    }

    /** Plans the ranges and reads the checkpointed ones back. */
    method PlanAndRehydrate(c: ResourceCommitment)
      requires commitment == Some(c) && c.Valid() && totalFailures == 0
      requires tracker.Valid() && world.ClockRuns() && tracker.latest <= world.clock(since) && since <= tick
      requires fetches == [] && records == tracker.health
      modifies this`ranges, this`books, this`resumed, sink
      ensures sink.finalized == old(sink.finalized)
      ensures Healthy() && books.issued == books.failed == 0 && |books.lens| == |ranges| && books.flights == []
      ensures Planned() && resumed <= resume.doneRanges && books.fed.Keys == resumed
      ensures sink.Works() && cfg.verifyWholeResource ==>
                ReadBack(ranges, resume.doneRanges, |old(sink.buf)|, resumed)
    {
      hide *;
      CommittedLength(c);
      ranges := PlanRanges(c.layout, cfg.window);
      PlannedTiling(c, ranges, Max(cfg.window, 1));
      var hashed := if cfg.verifyWholeResource then Some(FRESH) else None;
      StartsRehydrating(Lengths(ranges), resume.doneRanges, hashed);
      ResumedIs(Lengths(ranges), resume.doneRanges, hashed);
      var b, back := Rehydrate(c, Resumed(Lengths(ranges), resume.doneRanges, hashed));
      books, resumed := b, back;
      RehydratedSane(cfg, c, ranges, b, back);
      Rehydrated(c);
    }

    /** A run begun as call `t` must come to its end within `horizon` turns: there are holders and a layout, storage
        works, and the holders oblige, but for `slips`. */
    ghost predicate MustEnd(t: nat, horizon: nat, slips: set<nat>): (must: bool)
      reads this`commitment, this`ranges, this`resumed
      ensures must ==> commitment.Some?
    {
      && world.downloadable && HoldersAt(world, t) != [] && sink.Works() && store.Keeps()
      && commitment.Some? && Obliging(world, cfg, commitment.value, ranges, HoldersAt(world, t), resumed, slips)
      && horizon > |ranges| + |slips|
    }

    lemma StartsSteady(t: nat, horizon: nat, slips: set<nat>)
      requires MustEnd(t, horizon, slips) && !paused && books.flights == [] && providers == HoldersAt(world, t)
      ensures Steady(HoldersAt(world, t), slips) && horizon > |ranges| + |slips|
    {
      hide Obliging, HoldersAt;
    }

    lemma CanBegin(t: nat, horizon: nat, slips: set<nat>)
      requires MustEnd(t, horizon, slips)
      ensures world.downloadable && HoldersAt(world, t) != [] && store.Keeps() && commitment.Some? && sink.Works()
    {
      hide Obliging, HoldersAt;
    }

    /** `run_inner`: the first `horizon` turns of a download, `None` if it is still going on then. */
    method RunInner(horizon: nat, ghost slips: set<nat>)
      returns (r: Option<Result<nat, DownloadError>>, ghost blob: Bytes)
      requires commitment.Some? ==> commitment.value.Valid()
      requires tracker.Valid() && world.ClockRuns() && tracker.latest <= world.clock(tick)
      requires totalFailures == 0 && books.issued == 0
      modifies this, sink, store`ops, store`checkpoint, store`saves, tracker
      ensures records == old(tracker.health)
      ensures Spares(fetches, resumed)
      ensures r.None? ==> Healthy() && sink.finalized == old(sink.finalized)
      ensures r.Some? && r.value.Ok? ==>
                && commitment.Some? && r.value.value == commitment.value.totalLength
                && Delivers(commitment.value, blob)
                && sink.finalized && (sink.Undisturbed() ==> sink.buf == blob)
      ensures r.Some? && r.value.Err? ==> sink.finalized == old(sink.finalized)
      ensures old(commitment).None? ==>
                Bound(commitment) && Seeded(commitment, SeedAt(world, cfg.maxResourceSize, old(tick)))
      ensures resumed <= old(resume).doneRanges
      ensures world.downloadable && HoldersAt(world, old(tick)) != [] && store.Keeps() && commitment.Some? ==>
                Planned() && RestoredFrom(old(resume), |old(sink.buf)|)
      ensures old(commitment).Some? ==> commitment == old(commitment)
      ensures relocateAttempts <= old(relocateAttempts) || relocateAttempts <= cfg.maxRelocateAttempts
      ensures Frugal(books.issued, |books.lens|, cfg.maxRangeAttempts)
      ensures !old(paused) && MustEnd(old(tick), horizon, slips) ==>
                && r.Some?
                && ((Made(commitment.value, blob) && (r.value.Err? <==> Refused(blob)))
                    || (r.value == Err(NoProviders) && GaveUp(HoldersAt(world, old(tick)), slips)))
    {
      hide *;
      blob := [];
      FrugalStart(|books.lens|, cfg.maxRangeAttempts);
      ghost var t := tick;
      var begun := Begin();
      FrugalStart(|books.lens|, cfg.maxRangeAttempts);
      if MustEnd(t, horizon, slips) {
        CanBegin(t, horizon, slips);
      }
      if begun.Err? {
        return Some(Err(begun.error)), blob;
      }
      if !paused && MustEnd(t, horizon, slips) {
        StartsSteady(t, horizon, slips);
      }
      r, blob := RunOn(horizon, HoldersAt(world, t), slips);
    }

    /** A run once it has begun. */
    method RunOn(horizon: nat, ghost holders: seq<Peer>, ghost slips: set<nat>)
      returns (r: Option<Result<nat, DownloadError>>, ghost blob: Bytes)
      requires Healthy() && Lenient(books.failed, |books.lens|, cfg.maxRangeAttempts)
      requires Frugal(books.issued, |books.lens|, cfg.maxRangeAttempts)
      modifies this`tick, this`providers, this`books, this`paused, this`relocateAttempts
      modifies this`relocatedSinceProgress, this`totalFailures, this`fetches
      modifies sink, store`ops, store`checkpoint, store`saves, tracker
      ensures Spares(fetches, resumed)
      ensures r.None? ==> Healthy() && sink.finalized == old(sink.finalized)
      ensures r.Some? && r.value.Ok? ==>
                && commitment.Some? && r.value.value == commitment.value.totalLength
                && Delivers(commitment.value, blob)
                && sink.finalized && (sink.Undisturbed() ==> sink.buf == blob)
      ensures r.Some? && r.value.Err? ==> sink.finalized == old(sink.finalized)
      ensures relocateAttempts <= old(relocateAttempts) || relocateAttempts <= cfg.maxRelocateAttempts
      ensures Frugal(books.issued, |books.lens|, cfg.maxRangeAttempts)
      ensures sink.Works() && old(Steady(holders, slips)) && old(books).failed == 0
              && horizon > |old(books).lens| + |slips| ==>
                && r.Some?
                && ((commitment.Some? && Made(commitment.value, blob) && (r.value.Err? <==> Refused(blob)))
                    || (r.value == Err(NoProviders) && GaveUp(holders, slips)))
    {
      blob := [];
      hide *;
      var over := ScheduleLoop(horizon, holders, slips);
      if over.None? {
        return None, blob;
      }
      if over.value.Err? {
        return Some(Err(over.value.error)), blob;
      }
      Parts();
      var done;
      done, blob := Finish();
      return Some(done), blob;
    }

    /** `run`: resumes from the stored checkpoint, whatever it holds. */
    method Run(horizon: nat, ghost slips: set<nat>)
      returns (r: Option<Result<nat, DownloadError>>, ghost blob: Bytes)
      requires commitment.None? && tracker.Valid() && world.ClockRuns() && tracker.latest <= world.clock(tick)
      requires totalFailures == 0 && books.issued == 0
      modifies this, sink, store`ops, store`checkpoint, store`saves, tracker
      ensures records == old(tracker.health)
      ensures Spares(fetches, resumed)
      ensures r.None? ==> Healthy() && sink.finalized == old(sink.finalized)
      ensures r.Some? && r.value.Ok? ==>
                && commitment.Some? && r.value.value == commitment.value.totalLength
                && Delivers(commitment.value, blob)
                && sink.finalized && (sink.Undisturbed() ==> sink.buf == blob)
      ensures r.Some? && r.value.Err? ==> sink.finalized == old(sink.finalized)
      ensures commitment.Some? ==> commitment.value.totalLength <= cfg.maxResourceSize
      ensures old(store.checkpoint).None? || old(store.checkpoint).value.chunkLens == [] ==>
                && Bound(commitment)
                && (store.Keeps() ==> Seeded(commitment, SeedAt(world, cfg.maxResourceSize, old(tick))))
      ensures resumed <= if old(store.checkpoint).Some? then old(store.checkpoint).value.doneRanges else {}
      ensures world.downloadable && HoldersAt(world, old(tick)) != [] && store.Keeps() && commitment.Some? ==>
                && Planned()
                && (old(store.checkpoint).Some? ==> RestoredFrom(old(store.checkpoint).value, |old(sink.buf)|))
      ensures store.Keeps() && old(store.checkpoint).Some? && Resumable(old(store.checkpoint).value) ==>
                commitment.Some? && Restates(commitment.value, old(store.checkpoint).value)
      ensures relocateAttempts <= old(relocateAttempts) || relocateAttempts <= cfg.maxRelocateAttempts
      ensures Frugal(books.issued, |books.lens|, cfg.maxRangeAttempts)
      ensures !old(paused) && MustEnd(old(tick), horizon, slips) ==>
                && r.Some?
                && ((Made(commitment.value, blob) && (r.value.Err? <==> Refused(blob)))
                    || (r.value == Err(NoProviders) && GaveUp(HoldersAt(world, old(tick)), slips)))
    {
      hide *;
      blob, resumed, records := [], {}, tracker.health;
      NothingToSpare(fetches, resumed);
      NoFault(store);
      ghost var t := tick;
      var loaded := store.Load();
      if loaded.Err? {
        FrugalStart(|books.lens|, cfg.maxRangeAttempts);
        BoundLimits();
        if MustEnd(t, horizon, slips) {
          CanBegin(t, horizon, slips);
        }
        return Some(Err(loaded.error)), blob;
      }
      BoundLimits();
      Unresumable(if loaded.value.Some? then loaded.value.value else NO_STATE);
      ResumeFrom(if loaded.value.Some? then loaded.value.value else NO_STATE);
      r, blob := RunInner(horizon, slips);
      BoundLimits();
    }

    /** Takes up a checkpoint; one that states a layout within the limit brings the commitment along. */
    method ResumeFrom(state: DownloadState)
      requires commitment.None?
      modifies this`resume, this`commitment
      ensures resume == state && (commitment.Some? <==> Resumable(state))
      ensures commitment.Some? ==> Restates(commitment.value, state)
      ensures commitment.Some? ==> commitment.value.Valid() && commitment.value.totalLength <= cfg.maxResourceSize
    {
      resume := state;
      if resume.chunkLens != [] {
        var built := FromFirstFrameBounded(resume.totalLength, resume.chunkLens, resume.root, resume.inclusionProof,
                                           cfg.maxResourceSize);
        commitment := if built.Ok? then Some(built.value) else None;
      }
    }

    /** The checkpoint states a layout the run can take up. */
    predicate Resumable(state: DownloadState) {
      && state.chunkLens != [] && state.totalLength <= Min(cfg.maxResourceSize, U64_MAX)
      && |state.chunkLens| <= MAX_RESOURCE_CHUNK_COUNT
      && Offset(state.chunkLens, |state.chunkLens|) == state.totalLength
    }

    /** The commitment is the one the checkpoint states. */
    static predicate Restates(c: ResourceCommitment, state: DownloadState) {
      && c.layout.chunkLens == state.chunkLens && c.totalLength == state.totalLength && c.root == state.root
      && c.inclusionProof == state.inclusionProof
    }

    lemma Unresumable(state: DownloadState)
      ensures state.chunkLens == [] ==> !Resumable(state)
    {
    }

    lemma BoundLimits()
      ensures NO_STATE.chunkLens == [] && NO_STATE.doneRanges == {} && (commitment.None? ==> Bound(commitment))
      ensures Bound(commitment) && commitment.Some? ==> commitment.value.totalLength <= cfg.maxResourceSize
    {
    }
  }

  /** Read back from whatever checkpoint and staging, the books are sane and nothing has been issued. */
  lemma RehydratedSane(cfg: Config, c: ResourceCommitment, ranges: seq<Range>, b: Books, back: set<nat>)
    requires PlannedFrom(c, ranges) && b.lens == Lengths(ranges) && Rehydrating(b, |b.lens|)
    requires (b.hashed.Some? <==> cfg.verifyWholeResource) && back == b.fed.Keys && (b.hashed.None? ==> back == {})
    ensures Sane(cfg, c, ranges, b, back, [])
    ensures b.issued == b.failed == 0 && |b.lens| == |ranges| && b.flights == []
  {
    RehydratedBalances(b, Limits(cfg));
    assert Sourced(c, [], b.fed, back) && Spares([], back);
    hide Balanced, Sourced, PlannedFrom, Settled, Tiling, DoneBytes;
  }

  lemma NothingRecorded(w: World, c: ResourceCommitment, ranges: seq<Range>, health: map<Peer, SourceHealth>, base: nat,
                        max: nat)
    ensures Reflects(w, c, ranges, [], health, health, base, max)
  {
  }

  lemma NothingToSpare(log: seq<Fetching>, resumed: set<nat>)
    ensures log == [] || resumed == {} ==> Spares(log, resumed)
  {
  }

  lemma CommittedLength(c: ResourceCommitment)
    requires c.Valid()
    ensures c.layout.Valid() && c.layout.TotalLength() <= U64_MAX
  {
  }

  lemma TimelyAt(w: World, since: nat, now: nat, latest: nat)
    requires w.ClockRuns() && latest <= w.clock(since) && since <= now
    ensures Timely(w, since, now, latest, [])
  {
    assert w.clock(since) <= w.clock(now);
  }

  lemma FrugalStart(n: nat, attempts: nat)
    ensures Frugal(0, n, attempts) && Lenient(0, n, attempts)
  {
  }

  /** Range `i` of `blob` was delivered by one of the logged fetches. */
  ghost predicate PartDelivered(c: ResourceCommitment, log: seq<Fetching>, range: Range, i: nat, blob: Bytes) {
    && range.offset + range.length <= |blob|
    && Delivered(c, log, i, blob[range.offset..range.offset + range.length])
  }

  lemma AssembledFrom(cfg: Config, c: ResourceCommitment, ranges: seq<Range>, b: Books, resumed: set<nat>,
                      log: seq<Fetching>)
    returns (blob: Bytes)
    requires Sane(cfg, c, ranges, b, resumed, log) && AllDone(b.state)
    ensures forall i :: 0 <= i < |b.lens| ==> i in b.fed
    ensures blob == Joined(b.fed, |b.lens|) && |blob| == Offset(b.lens, |b.lens|) == c.totalLength <= U64_MAX
    ensures PlannedFrom(c, ranges) && (b.hashed.Some? <==> cfg.verifyWholeResource)
    ensures b.hashed.Some? ==> b.hashed.value.absorbed == blob && b.hashed.value.nextOffset == c.totalLength
    ensures |log| <= b.issued && Spares(log, resumed)
    ensures forall i: nat :: i < |ranges| && i !in resumed ==> PartDelivered(c, log, ranges[i], i, blob)
    ensures !cfg.verifyWholeResource ==> resumed == {}
  {
    AllHashed(b, Limits(cfg));
    PlannedTotal(c, ranges);
    assert forall i: nat :: i in b.fed ==> |b.fed[i]| == b.lens[i];
    JoinedLength(b.fed, b.lens, |b.lens|);
    blob := Joined(b.fed, |b.lens|);
    assert b.lens == Lengths(ranges);
    hide Balanced, Tiling, Joined;
    forall i: nat | i < |ranges| && i !in resumed ensures PartDelivered(c, log, ranges[i], i, blob) {
      PartFrom(c, ranges, b.fed, b.lens, resumed, log, i);
    }
  }

  lemma PartFrom(c: ResourceCommitment, ranges: seq<Range>, fed: map<nat, Bytes>, lens: seq<nat>,
                 resumed: set<nat>, log: seq<Fetching>, i: nat)
    requires PlannedFrom(c, ranges) && lens == Lengths(ranges) && i < |ranges|
    requires Sourced(c, log, fed, resumed) && i !in resumed
    requires forall k :: 0 <= k < |lens| ==> k in fed && |fed[k]| == lens[k]
    ensures PartDelivered(c, log, ranges[i], i, Joined(fed, |lens|))
  {
    PlannedRange(c, ranges, i);
    JoinedSlice(fed, lens, i, |lens|);
    assert Delivered(c, log, i, fed[i]);
    hide PlannedFrom, Joined, Sourced, Delivered, Offset;
  }

  lemma ResumedIs(lens: seq<nat>, done: set<nat>, hashed: Option<HasherState>)
    ensures var b := Resumed(lens, done, hashed); b.lens == lens && b.done == done && b.hashed == hashed
  {
  }

  lemma NoneReadBack(done: set<nat>, size: nat)
    ensures ReadBack([], done, size, {})
  {
  }

  lemma OneMoreReadBack(ranges: seq<Range>, done: set<nat>, size: nat, before: set<nat>, back: set<nat>, i: nat)
    requires i < |ranges| && ReadBack(ranges[..i], done, size, before) && forall j :: j in before ==> j < i
    requires back == if i in done && ranges[i].offset + ranges[i].length <= size then before + {i} else before
    ensures ReadBack(ranges[..i + 1], done, size, back)
  {
    assert forall j :: 0 <= j < i ==> ranges[..i + 1][j] == ranges[..i][j];
  }

  lemma NoneRehydrated(b: Books, buf: Bytes)
    requires Rehydrating(b, 0)
    ensures b.fed.Keys == {} && Staged(buf, b.lens, b.fed)
  {
  }

  lemma RangeToRehydrate(c: ResourceCommitment, ranges: seq<Range>, b: Books, i: nat)
    requires PlannedFrom(c, ranges) && b.lens == Lengths(ranges) && Rehydrating(b, i) && i < |ranges|
    ensures i < |b.lens| == |b.state| == |ranges| && ranges[i].offset == Offset(b.lens, i)
    ensures ranges[i].length == b.lens[i] && (b.state[i].Done? <==> i in b.done)
    ensures ranges[i].offset + ranges[i].length <= U64_MAX
    ensures forall bytes: Bytes ::
              VerifyRange(c, ranges[i].chunkStart, ranges[i].length, bytes) <==> |bytes| == ranges[i].length
  {
    PlannedRange(c, ranges, i);
    forall bytes: Bytes
      ensures VerifyRange(c, ranges[i].chunkStart, ranges[i].length, bytes) <==> |bytes| == ranges[i].length
    {
      PlannedRangeCheck(c, ranges, i, bytes);
    }
    hide VerifyRange, Offset, Lengths;
  }

  lemma KeptStaged(buf: Bytes, b: Books, i: nat, bytes: Bytes)
    requires i < |b.lens| && |bytes| == b.lens[i] && Offset(b.lens, i) + |bytes| <= |buf|
    requires bytes == buf[Offset(b.lens, i)..Offset(b.lens, i) + |bytes|]
    requires Staged(buf, b.lens, b.fed)
    ensures Staged(buf, b.lens, Keep(b, i, bytes).fed)
  {
  }

  lemma KeptFed(b: Books, i: nat, bytes: Bytes)
    requires i < |b.lens|
    ensures Keep(b, i, bytes).fed.Keys == b.fed.Keys + {i} && Keep(b, i, bytes).lens == b.lens
    ensures Keep(b, i, bytes).done == b.done
    ensures Keep(b, i, bytes).hashed.Some? <==> b.hashed.Some?
  {
  }

  lemma DroppedFed(b: Books, i: nat)
    requires i < |b.lens| == |b.state|
    ensures Drop(b, i).fed == b.fed && Drop(b, i).lens == b.lens && Drop(b, i).hashed == b.hashed
    ensures Drop(b, i).done == b.done - {i}
  {
  }

  /** At most one failure more than the budget, which is not saturated. */
  predicate Lenient(failed: nat, n: nat, attempts: nat) {
    Max(n * attempts, attempts) < U64_MAX ==> failed <= Max(n * attempts, attempts) + 1
  }

  /** The fetches a run of `n` ranges may issue. */
  predicate Frugal(issued: nat, n: nat, attempts: nat) {
    Max(n * attempts, attempts) < U64_MAX ==> issued <= n + Max(n * attempts, attempts) + 1
  }
}
