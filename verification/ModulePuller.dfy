/** `ModuleDownloader` of `src/module.rs`: pulls a whole module from untrusted holders, gates it, promotes it. */
module ModulePuller {
  import opened Basics
  import opened ModulePlan
  import opened ModuleEnv
  import opened DescriptorLog
  import opened Sinks
  import opened Progress
  import opened StagedReader
  import RoundRobin

  const MAX_DESCRIPTOR_ATTEMPTS: nat := 3

  /** Exactly the chunks before `k`. */
  ghost predicate Initial(done: set<nat>, k: nat) { forall i: nat :: i in done <==> i < k }

  ghost predicate CountsUp(log: seq<nat>, k: nat) { |log| == k && forall i :: 0 <= i < k ==> log[i] == i }

  /** What the guarantees below may be asked about: a genuine module, a holder that describes it truthfully but for the
      calls it `misses`, those that serve its bytes between them, the holders that lie, and a chunking. All are
      arbitrary; each guarantee says what it assumes of them. */
  datatype Scenario = Scenario(
    genuine: Bytes, honest: Peer, misses: set<nat>, servers: set<Peer>, liars: set<Peer>, lens: seq<nat>,
    hashes: seq<string>)

  /** The checkpoint a pull starts from, and whether the staged bytes belong to its plan. */
  datatype Resume = Resume(state: DownloadState, resumesStaging: bool)

  /** Which holders are not asked for a descriptor: demoted in this call for good, remembered ones droppably. */
  class DescriptorExclusions {
    var demotedHere: seq<Peer>
    var remembered: seq<Peer>
    var trustsMemory: bool

    constructor (remembered: seq<Peer>)
      ensures demotedHere == [] && this.remembered == remembered && trustsMemory == (remembered != [])
    {
      demotedHere, this.remembered, trustsMemory := [], remembered, remembered != [];
    }

    /** The remembered holders, unless they have been dropped. */
    function Memory(): seq<Peer>
      reads this`remembered, this`trustsMemory
    {
      if trustsMemory then remembered else []
    }

    function Excluded(): seq<Peer>
      reads this
    {
      demotedHere + Memory()
    }

    function UsableHolders(providers: seq<Peer>): (n: nat)
      reads this
      ensures n == 0 <==> forall p :: p in providers ==> p in Excluded()
    {
      if providers == [] then 0
      else
        assert providers == [providers[0]] + providers[1..];
        UsableHolders(providers[1..]) + if providers[0] in Excluded() then 0 else 1
    }

    method Demote(peer: Peer)
      modifies this`demotedHere
      ensures demotedHere == old(demotedHere) + [peer]
    {
      demotedHere := demotedHere + [peer];
    }

    /** Whether dropping the memory changed anything. */
    method StopTrustingMemory() returns (changed: bool)
      modifies this`trustsMemory
      ensures !trustsMemory && changed == (old(trustsMemory) && remembered != [])
    {
      changed := trustsMemory && remembered != [];
      trustsMemory := false;
    }
  }

  /** How one descriptor round ended. */
  datatype Outcome =
    | Over(result: Result<nat, DownloadError>) | Demoted(error: DownloadError) | Unanswered(error: DownloadError)

  /** What a download started from: `from` is where its descriptor requests begin in the log, `since` the call after it
      located its holders. It may have to promote the genuine module (`must`) or to fetch no chunk twice (`once`). */
  datatype Start = Start(
    from: nat, since: nat, located: seq<Peer>, remembered: seq<Peer>, finalized: bool, blamed: seq<Peer>, disk: Disk,
    must: bool, once: bool)

  /** What a pull that ended with `r` did, `promoted` telling whether the sink was finalized by it. */
  datatype Pulled = Pulled(promoted: bool, blob: Bytes, seen: seq<AnchorRead>)

  const NOTHING := Pulled(false, [], [])

  /** The holders that may be asked for a descriptor, in order. */
  function Askable(providers: seq<Peer>, excluded: seq<Peer>): (r: seq<Peer>)
    ensures forall p :: p in r <==> p in providers && p !in excluded
  {
    if providers == [] then []
    else
      var k := |providers| - 1;
      assert providers == providers[..k] + [providers[k]];
      Askable(providers[..k], excluded) + if providers[k] in excluded then [] else [providers[k]]
  }

  lemma {:induction false} AskablePrefix(providers: seq<Peer>, excluded: seq<Peer>, k: nat)
    requires k <= |providers|
    ensures Askable(providers[..k], excluded) <= Askable(providers, excluded)
    decreases |providers| - k
  {
    if k < |providers| {
      AskablePrefix(providers, excluded, k + 1);
      assert providers[..k + 1][..k] == providers[..k];
    } else {
      assert providers[..k] == providers;
    }
  }

  lemma NextAskable(providers: seq<Peer>, excluded: seq<Peer>, k: nat)
    requires k < |providers|
    ensures Askable(providers[..k + 1], excluded) ==
            Askable(providers[..k], excluded) + if providers[k] in excluded then [] else [providers[k]]
    ensures Askable(providers[..k + 1], excluded) <= Askable(providers, excluded)
  {
    assert providers[..k + 1][..k] == providers[..k];
    AskablePrefix(providers, excluded, k + 1);
  }

  class ModuleDownloader {
    const env: Env
    const sink: Sink
    const store: StateStore
    var tick: nat
    ghost var accepted: seq<nat>  // the chunks accepted from holders, in order
    ghost var asked: seq<Asking>  // the descriptor requests, in order

    constructor (env: Env, sink: Sink, store: StateStore)
      ensures this.env == env && this.sink == sink && this.store == store
      ensures tick == 0 && accepted == [] && asked == []
    {
      this.env, this.sink, this.store, tick, accepted, asked := env, sink, store, 0, [], [];
    }

    /** `info` is acceptable, and someone known serves the window it declares for chunk `index`. */
    ghost predicate Obtainable(info: ModuleInfo, plan: ChunkPlan, index: nat, known: seq<Peer>, s: Scenario)
      requires plan.Of(info) && index < |plan.chunkLens|
    {
      && Acceptable(env.sha, env.maxModuleSize, info, s.genuine)
      && exists p :: p in known && env.Supplies(p, plan.offsets[index], plan.chunkLens[index], s.genuine)
    }

    /** `info` is acceptable, and between them the servers can serve every chunk it declares. */
    ghost predicate Servable(info: ModuleInfo, s: Scenario) {
      Acceptable(env.sha, env.maxModuleSize, info, s.genuine) && env.Supplied(s.servers, s.genuine)
    }

    lemma ServersObtain(info: ModuleInfo, plan: ChunkPlan, index: nat, known: seq<Peer>, s: Scenario)
      requires plan.Of(info) && index < |plan.chunkLens| && Servable(info, s)
      requires forall p :: p in s.servers ==> p in known
      ensures Obtainable(info, plan, index, known, s)
    {
      HonestChunk(info, plan, index, s);
      var (o, l) := (plan.offsets[index], plan.chunkLens[index]);
      hide ChunkPlan.Of, Acceptable;
      assert env.Stocked(s.servers, o, l, s.genuine);
      var p :| p in s.servers && env.Supplies(p, o, l, s.genuine);
    }

    /** The sink works, checkpoints can be loaded and saved, and so does relocating. */
    ghost predicate LocalWorks() {
      sink.Works() && store.Keeps() && forall t: nat :: env.locate(t).Ok?
    }

    /** One range from one holder: clipped to the window, and accepted only if it fills it and hashes right. */
    method FetchChunkFrom(peer: Peer, info: ModuleInfo, plan: ChunkPlan, index: nat, ghost s: Scenario)
      returns (r: Option<Bytes>)
      requires plan.Of(info) && index < |plan.chunkLens|
      modifies this`tick
      ensures tick == old(tick) + 1
      ensures r.Some? ==> |r.value| == plan.chunkLens[index] && env.sha(r.value) == info.chunkHashes[index]
      ensures var (o, l) := (plan.offsets[index], plan.chunkLens[index]);
              Acceptable(env.sha, env.maxModuleSize, info, s.genuine)
              && o + l <= |s.genuine| && env.Serves(old(tick), peer, o, l, s.genuine) ==>
                r == Some(s.genuine[o..o + l])
    {
      var (offset, len) := (plan.offsets[index], plan.chunkLens[index]);
      if Acceptable(env.sha, env.maxModuleSize, info, s.genuine) {
        HonestChunk(info, plan, index, s);
      }
      var reply := env.moduleRange(tick, peer, offset, len);
      tick := tick + 1;
      if !reply.Answered? {
        return None;
      }
      var bytes := if |reply.value| > len then reply.value[..len] else reply.value;
      assert |reply.value| >= len ==> bytes == reply.value[..len];
      if |bytes| != len || env.sha(bytes) != info.chunkHashes[index] {
        return None;
      }
      return Some(bytes);
    }

    lemma HonestChunk(info: ModuleInfo, plan: ChunkPlan, index: nat, s: Scenario)
      requires plan.Of(info) && index < |plan.chunkLens|
      requires Acceptable(env.sha, env.maxModuleSize, info, s.genuine)
      ensures plan.offsets[index] + plan.chunkLens[index] <= |s.genuine|
      ensures env.sha(s.genuine[plan.offsets[index]..plan.offsets[index] + plan.chunkLens[index]])
           == info.chunkHashes[index]
    {
      assert ChunkMatches(env.sha, info.chunkLens, info.chunkHashes, s.genuine, index);
    }

    /** One cycle over the known holders, starting at a per-chunk offset. */
    method AskEach(known: seq<Peer>, info: ModuleInfo, plan: ChunkPlan, index: nat, ghost s: Scenario)
      returns (r: Option<Bytes>)
      requires plan.Of(info) && index < |plan.chunkLens|
      modifies this`tick, this`accepted
      ensures old(tick) <= tick && accepted == if r.Some? then old(accepted) + [index] else old(accepted)
      ensures r.Some? ==> |r.value| == plan.chunkLens[index] && env.sha(r.value) == info.chunkHashes[index]
      ensures Obtainable(info, plan, index, known, s) ==> r.Some?
    {
      hide RoundRobin.Turn;
      var count := |known|;
      ghost var (o, l) := (plan.offsets[index], plan.chunkLens[index]);
      if Acceptable(env.sha, env.maxModuleSize, info, s.genuine) {
        HonestChunk(info, plan, index, s);
      }
      for step := 0 to count
        invariant old(tick) <= tick && accepted == old(accepted)
        invariant Acceptable(env.sha, env.maxModuleSize, info, s.genuine) ==>
                    forall k: nat :: k < step ==>
                      !env.Supplies(known[RoundRobin.Turn(index, k, count)], o, l, s.genuine)
      {
        r := FetchChunkFrom(known[RoundRobin.Turn(index, step, count)], info, plan, index, s);
        if r.Some? {
          accepted := accepted + [index];
          return;
        }
      }
      if Obtainable(info, plan, index, known, s) {
        ghost var p :| p in known && env.Supplies(p, o, l, s.genuine);
        ghost var q: nat :| q < count && known[q] == p;
        ghost var step := RoundRobin.Reaches(index, count, q);
      }
      return None;
    }

    /** Cycles the known holders, relocates once, and cycles again before giving up on a chunk. */
    method FetchVerifiedChunk(providers: seq<Peer>, info: ModuleInfo, plan: ChunkPlan, index: nat, ghost s: Scenario)
      returns (r: Result<Bytes, DownloadError>, known: seq<Peer>)
      requires plan.Of(info) && index < |plan.chunkLens|
      modifies this`tick, this`accepted
      ensures providers <= known && old(tick) <= tick && (env.AllFound(providers) ==> env.AllFound(known))
      ensures accepted == if r.Ok? then old(accepted) + [index] else old(accepted)
      ensures r.Ok? ==> |r.value| == plan.chunkLens[index] && env.sha(r.value) == info.chunkHashes[index]
      ensures known == providers
              || exists t: nat :: old(tick) <= t && env.locate(t).Ok? && known == Merge(providers, env.locate(t).value)
      // it fails only once no one known, the relocated ones among them, has brought the chunk, or relocating failed
      ensures Obtainable(info, plan, index, known, s) ==> r.Ok?
      ensures r.Err? ==>
                || (r.error == NotFound && exists t: nat ::
                      old(tick) <= t && env.locate(t).Ok? && known == Merge(providers, env.locate(t).value))
                || (known == providers && exists t: nat :: old(tick) <= t && env.locate(t) == Err(r.error))
    {
      hide Obtainable;
      known := providers;
      var relocated := false;
      while true
        invariant providers <= known && accepted == old(accepted) && old(tick) <= tick
        invariant env.AllFound(providers) ==> env.AllFound(known)
        invariant !relocated ==> known == providers
        invariant relocated ==>
                    exists t: nat ::
                      old(tick) <= t && env.locate(t).Ok? && known == Merge(providers, env.locate(t).value)
        decreases !relocated
      {
        var bytes := AskEach(known, info, plan, index, s);
        if bytes.Some? {
          return Ok(bytes.value), known;
        }
        if relocated {
          return Err(NotFound), known;
        }
        var refreshed := env.locate(tick);
        tick := tick + 1;
        if refreshed.Err? {
          return Err(refreshed.error), known;
        }
        known := Merge(known, refreshed.value);
        relocated := true;
      }
    }

    /** Reads one checkpointed chunk back, keeping it only if it still carries its declared hash. */
    method ReadBackVerifiedChunk(info: ModuleInfo, plan: ChunkPlan, index: nat) returns (r: Option<Bytes>)
      requires plan.Of(info) && index < |plan.chunkLens|
      modifies sink
      ensures sink.finalized == old(sink.finalized)
      ensures sink.Undisturbed() ==> sink.buf == old(sink.buf)
      ensures r.Some? ==> |r.value| == plan.chunkLens[index] && env.sha(r.value) == info.chunkHashes[index]
      ensures r.Some? && sink.Undisturbed() ==>
                Offset(plan.chunkLens, index + 1) <= |sink.buf| && r.value == ChunkOf(plan.chunkLens, sink.buf, index)
      ensures sink.Works() && old(ChunkMatches(env.sha, plan.chunkLens, info.chunkHashes, sink.buf, index)) ==> r.Some?
    {
      OffsetStep(plan.chunkLens, index);
      OffsetMonotone(plan.chunkLens, index + 1, |plan.chunkLens|);
      r := sink.ReadAt(plan.offsets[index], plan.chunkLens[index]);
      if r.Some? && env.sha(r.value) != info.chunkHashes[index] {
        return None;
      }
    }

    /** The staging area starts with `blob`. */
    ghost predicate StartsWith(blob: Bytes)
      reads sink
    {
      |blob| <= |sink.buf| && sink.buf[..|blob|] == blob
    }

    /** The disk once chunk `index` is added to the done ones of `state` and that is saved. */
    static function Saved(was: Disk, state: DownloadState, index: nat): Disk {
      var next := state.(doneRanges := state.doneRanges + {index});
      Disk(Some(next), was.saves + [next])
    }

    /** With local storage and the locator working, a chunk is denied only after relocating, by all then known. */
    lemma Denied(info: ModuleInfo, plan: ChunkPlan, index: nat, providers: seq<Peer>, known: seq<Peer>, since: nat,
                 e: DownloadError, s: Scenario)
      requires plan.Of(info) && index < |plan.chunkLens| && !Obtainable(info, plan, index, known, s)
      requires || (e == NotFound && exists t: nat ::
                     since <= t && env.locate(t).Ok? && known == Merge(providers, env.locate(t).value))
               || (known == providers && exists t: nat :: since <= t && env.locate(t) == Err(e))
      ensures LocalWorks() ==>
                && e == NotFound && env.Relocated(known, since)
                && !(Servable(info, s) && forall p :: p in s.servers ==> p in known)
    {
      hide Sink.Works, StateStore.Keeps, Obtainable, Servable, ChunkPlan.Of;
      if Servable(info, s) && forall p :: p in s.servers ==> p in known {
        ServersObtain(info, plan, index, known, s);
      }
    }

    /** Writes one chunk in its place, after what was absorbed so far. */
    method StageAt(info: ModuleInfo, plan: ChunkPlan, index: nat, bytes: Bytes, ghost absorbed: Bytes)
      returns (ok: bool)
      requires plan.Of(info) && index < |plan.chunkLens| && |absorbed| == Offset(plan.chunkLens, index)
      requires |bytes| == plan.chunkLens[index]
      modifies sink
      ensures sink.finalized == old(sink.finalized) && (sink.Works() ==> ok)
      ensures ok && sink.Undisturbed() && old(StartsWith(absorbed)) ==> StartsWith(absorbed + bytes)
    {
      OffsetStep(plan.chunkLens, index);
      OffsetMonotone(plan.chunkLens, index + 1, |plan.chunkLens|);
      hide Offset;
      ghost var before := sink.buf;
      ok := sink.WriteAt(plan.offsets[index], bytes);
      if sink.Undisturbed() && |absorbed| <= |before| && before[..|absorbed|] == absorbed {
        SplicedOnto(before, absorbed, bytes);
      }
    }

    /** Fetches one chunk, writes it and checkpoints it. */
    method FetchAndStage(info: ModuleInfo, plan: ChunkPlan, index: nat, state: DownloadState, providers: seq<Peer>,
                         ghost absorbed: Bytes, ghost s: Scenario)
      returns (r: Result<Bytes, PullFailure>, known: seq<Peer>)
      requires plan.Of(info) && index < |plan.chunkLens| && |absorbed| == Offset(plan.chunkLens, index)
      modifies this`tick, this`accepted, sink, store`ops, store`checkpoint, store`saves
      ensures sink.finalized == old(sink.finalized) && providers <= known && old(tick) <= tick
      ensures env.AllFound(providers) ==> env.AllFound(known)
      ensures r.Ok? ==>
                && |r.value| == plan.chunkLens[index] && env.sha(r.value) == info.chunkHashes[index]
                && accepted == old(accepted) + [index]
                && store.OnDisk() == Saved(old(store.OnDisk()), state, index)
                && (sink.Undisturbed() && old(StartsWith(absorbed)) ==> StartsWith(absorbed + r.value))
      ensures r.Err? ==>
                && store.OnDisk() == old(store.OnDisk())
                && match r.error
                   case UnsatisfiableDescriptor(_) => accepted == old(accepted) && sink.buf == old(sink.buf)
                   case Terminal(_) =>
                     !LocalWorks() && (accepted == old(accepted) || accepted == old(accepted) + [index])
                   case BadDescriptor(_) => false
      ensures LocalWorks() && r.Err? ==>
                && r.error.error == NotFound && env.Relocated(known, old(tick))
                && !(Servable(info, s) && forall p :: p in s.servers ==> p in known)
    {
      hide Offset, Servable, Obtainable, Merge, Env.Relocated, Env.AllFound;
      var fetched;
      ghost var now := tick;
      fetched, known := FetchVerifiedChunk(providers, info, plan, index, s);
      if fetched.Err? {
        Denied(info, plan, index, providers, known, now, fetched.error, s);
        if fetched.error.IsRecoverable() || fetched.error.NotFound? {
          return Err(UnsatisfiableDescriptor(fetched.error)), known;
        }
        return Err(Terminal(fetched.error)), known;
      }
      var written := StageAt(info, plan, index, fetched.value, absorbed);
      if !written {
        return Err(Terminal(DownloadError.Sink)), known;
      }
      var saved := store.Save(state.(doneRanges := state.doneRanges + {index}));
      if !saved {
        return Err(Terminal(State)), known;
      }
      return Ok(fetched.value), known;
    }

    static lemma SplicedOnto(buf: Bytes, prefix: Bytes, data: Bytes)
      requires |prefix| <= |buf| && buf[..|prefix|] == prefix
      ensures Splice(buf, |prefix|, data)[..|prefix| + |data|] == prefix + data
    {
      var after := Splice(buf, |prefix|, data);
      assert after[|prefix|..|prefix| + |data|] == data;
      assert forall k :: 0 <= k < |prefix| ==> after[k] == buf[k] == buf[..|prefix|][k];
      assert after[..|prefix| + |data|] == after[..|prefix|] + after[|prefix|..|prefix| + |data|];
    }

    /** One chunk: read back if it was checkpointed and is still intact, else fetched, written and checkpointed. */
    method ObtainChunk(info: ModuleInfo, plan: ChunkPlan, index: nat, checkpointed: set<nat>, state: DownloadState,
                       providers: seq<Peer>, ghost absorbed: Bytes, ghost s: Scenario)
      returns (r: Result<Bytes, PullFailure>, known: seq<Peer>)
      requires plan.Of(info) && index < |plan.chunkLens| && |absorbed| == Offset(plan.chunkLens, index)
      modifies this`tick, this`accepted, sink, store`ops, store`checkpoint, store`saves
      ensures sink.finalized == old(sink.finalized) && providers <= known && old(tick) <= tick
      ensures env.AllFound(providers) ==> env.AllFound(known)
      ensures r.Ok? ==>
                && |r.value| == plan.chunkLens[index] && env.sha(r.value) == info.chunkHashes[index]
                && (sink.Undisturbed() && old(StartsWith(absorbed)) ==> StartsWith(absorbed + r.value))
      ensures store.OnDisk() == old(store.OnDisk()) || store.OnDisk() == Saved(old(store.OnDisk()), state, index)
      ensures r.Err? ==>
                match r.error
                case UnsatisfiableDescriptor(_) =>
                  && accepted == old(accepted) && store.OnDisk() == old(store.OnDisk())
                  && (sink.Undisturbed() ==> sink.buf == old(sink.buf))
                case Terminal(_) => !LocalWorks() && (accepted == old(accepted) || accepted == old(accepted) + [index])
                case BadDescriptor(_) => false
      ensures LocalWorks() && r.Err? ==>
                && r.error.error == NotFound && env.Relocated(known, old(tick))
                && !(Servable(info, s) && forall p :: p in s.servers ==> p in known)
      ensures r.Ok? && index !in checkpointed ==>
                && accepted == old(accepted) + [index]
                && store.OnDisk() == Saved(old(store.OnDisk()), state, index)
      ensures sink.Works() && index in checkpointed
              && old(ChunkMatches(env.sha, plan.chunkLens, info.chunkHashes, sink.buf, index)) ==>
                r.Ok? && accepted == old(accepted) && store.OnDisk() == old(store.OnDisk())
                && sink.buf == old(sink.buf)
    {
      if index in checkpointed {
        var staged := ReadBackVerifiedChunk(info, plan, index);
        if staged.Some? {
          if sink.Undisturbed() && StartsWith(absorbed) {
            OffsetStep(plan.chunkLens, index);
            assert sink.buf[..|absorbed| + |staged.value|]
                == sink.buf[..|absorbed|] + sink.buf[|absorbed|..|absorbed| + |staged.value|];
          }
          return Ok(staged.value), providers;
        }
      }
      hide Servable, ChunkMatches, Offset, Env.AllFound;
      r, known := FetchAndStage(info, plan, index, state, providers, absorbed, s);
    }

    /** Exactly chunks `0 .. k` have been accepted so far, once each; they are staged intact and checkpointed. */
    ghost predicate Resumable(k: nat, lens: seq<nat>, hashes: seq<string>)
      reads this`accepted, sink`buf, store`checkpoint
    {
      && CountsUp(accepted, k)
      && (k == 0 ==> store.checkpoint.None?)
      && (k > 0 ==>
            && Attributed(env.sha, lens, hashes, sink.buf, k)
            && store.checkpoint.Some? && store.checkpoint.value.chunkLens == lens
            && Initial(store.checkpoint.value.doneRanges, k))
    }

    /** The checkpoint is untouched, gone, or records an initial segment of the chunks, and so did every state saved. */
    static ghost predicate InOrder(was: Disk, now: Disk) {
      && (now.checkpoint == was.checkpoint || now.checkpoint == None || Ascending(now.checkpoint.value))
      && was.saves <= now.saves && forall k :: |was.saves| <= k < |now.saves| ==> Ascending(now.saves[k])
    }

    static ghost predicate Ascending(state: DownloadState) { exists d: nat :: Initial(state.doneRanges, d) }

    static lemma InOrderStep(a: Disk, b: Disk, c: Disk)
      requires InOrder(a, b) && InOrder(b, c)
      ensures InOrder(a, c)
    {
      hide Ascending;
      assert forall k :: |a.saves| <= k < |b.saves| ==> c.saves[k] == b.saves[k];
    }

    /** At most one save was made, of an initial segment. */
    static lemma InOrderSave(was: Disk, now: Disk, state: DownloadState)
      requires Ascending(state)
      requires now == was || now == Disk(Some(state), was.saves + [state])
      ensures InOrder(was, now)
    {
      hide Ascending;
    }

    static lemma NextInOrder(was: Disk, now: Disk, state: DownloadState, index: nat)
      requires Initial(state.doneRanges, index) && (now == was || now == Saved(was, state, index))
      ensures InOrder(was, now)
    {
      var next := state.(doneRanges := state.doneRanges + {index});
      assert Initial(next.doneRanges, index + 1);
      InOrderSave(was, now, next);
    }

    /** Obtains chunk `index` after `absorbed`, keeping the count `k` of the chunks accepted once each. */
    method StageOne(info: ModuleInfo, plan: ChunkPlan, index: nat, checkpointed: set<nat>, state: DownloadState,
                    providers: seq<Peer>, ghost absorbed: Bytes, ghost s: Scenario, ghost k0: nat, ghost k: nat)
      returns (r: Result<Bytes, PullFailure>, known: seq<Peer>, ghost k': nat)
      requires plan.Of(info) && index < |plan.chunkLens| && |absorbed| == Offset(plan.chunkLens, index)
      requires Attributed(env.sha, plan.chunkLens, info.chunkHashes, absorbed, index)
      requires state.chunkLens == plan.chunkLens && Initial(state.doneRanges, index)
      requires sink.Undisturbed() ==> StartsWith(absorbed)
      modifies this`tick, this`accepted, sink, store`ops, store`checkpoint, store`saves
      ensures sink.finalized == old(sink.finalized) && providers <= known && old(tick) <= tick
      ensures env.AllFound(providers) ==> env.AllFound(known)
      ensures r.Ok? ==>
                && |r.value| == plan.chunkLens[index]
                && Attributed(env.sha, plan.chunkLens, info.chunkHashes, absorbed + r.value, index + 1)
                && (sink.Undisturbed() ==> StartsWith(absorbed + r.value))
      ensures r.Err? ==> r.error.UnsatisfiableDescriptor? || (r.error.Terminal? && !LocalWorks())
      ensures LocalWorks() && r.Err? ==>
                && r.error.error == NotFound && env.Relocated(known, old(tick))
                && !(Servable(info, s) && forall p :: p in s.servers ==> p in known)
      ensures store.checkpoint == old(store.checkpoint)
              || (store.checkpoint.Some? && Initial(store.checkpoint.value.doneRanges, index + 1))
      ensures InOrder(old(store.OnDisk()), store.OnDisk())
      ensures sink.Works() && old(Resumable(k, plan.chunkLens, info.chunkHashes)) && k == Max(k0, index)
              && Initial(checkpointed, k0) ==>
                && CountsUp(accepted, k') && k <= k'
                && (r.Ok? ==> k' == Max(k0, index + 1) && Resumable(k', plan.chunkLens, info.chunkHashes))
                && (r.Err? && r.error.UnsatisfiableDescriptor? ==>
                      k' == k && Resumable(k, plan.chunkLens, info.chunkHashes))
    {
      assert Attributed(env.sha, plan.chunkLens, info.chunkHashes, sink.buf, k) && index < k ==>
        ChunkMatches(env.sha, plan.chunkLens, info.chunkHashes, sink.buf, index);
      hide Env.AllFound, Servable, LocalWorks, Offset;
      r, known := ObtainChunk(info, plan, index, checkpointed, state, providers, absorbed, s);
      NextInOrder(old(store.OnDisk()), store.OnDisk(), state, index);
      k' := |accepted|;
      if r.Ok? {
        AttributedSnoc(env.sha, plan.chunkLens, info.chunkHashes, absorbed, r.value, index);
        OffsetStep(plan.chunkLens, index);
        if sink.Undisturbed() {
          AttributedPrefix(env.sha, plan.chunkLens, info.chunkHashes, absorbed + r.value, sink.buf, index + 1);
        }
      }
    }

    /** Stages and hashes the module chunk by chunk in ascending order; the result is what was hashed. */
    method StageChunks(info: ModuleInfo, plan: ChunkPlan, checkpointed: set<nat>, blank: DownloadState,
                       providers: seq<Peer>, ghost s: Scenario, ghost k0: nat)
      returns (r: Result<Bytes, PullFailure>, known: seq<Peer>, ghost k: nat)
      requires plan.Of(info) && blank.chunkLens == plan.chunkLens && blank.doneRanges == {}
      modifies this`tick, this`accepted, sink, store`ops, store`checkpoint, store`saves
      ensures sink.finalized == old(sink.finalized) && providers <= known && old(tick) <= tick
      ensures env.AllFound(providers) ==> env.AllFound(known)
      ensures r.Ok? ==>
                && |r.value| == plan.totalSize
                && Attributed(env.sha, plan.chunkLens, info.chunkHashes, r.value, |plan.chunkLens|)
                && (sink.Undisturbed() ==> StartsWith(r.value))
      ensures r.Err? ==> r.error.UnsatisfiableDescriptor? || (r.error.Terminal? && !LocalWorks())
      ensures LocalWorks() && r.Err? ==>
                && r.error.error == NotFound && env.Relocated(known, old(tick))
                && !(Servable(info, s) && forall p :: p in s.servers ==> p in known)
      ensures store.checkpoint == old(store.checkpoint)
              || (store.checkpoint.Some? && exists d: nat :: Initial(store.checkpoint.value.doneRanges, d))
      ensures InOrder(old(store.OnDisk()), store.OnDisk())
      ensures sink.Works() && old(Resumable(k0, plan.chunkLens, info.chunkHashes)) && Initial(checkpointed, k0) ==>
                && CountsUp(accepted, k)
                && (r.Ok? || r.error.UnsatisfiableDescriptor? ==> Resumable(k, plan.chunkLens, info.chunkHashes))
    {
      var absorbed: Bytes := [];
      var state := blank;
      known, k := providers, k0;
      assert Offset(plan.chunkLens, 0) == 0;
      assert Attributed(env.sha, plan.chunkLens, info.chunkHashes, absorbed, 0);
      hide Env.AllFound, Servable, LocalWorks, Offset, Attributed, Env.Relocated;
      ghost var once := sink.Works() && Resumable(k0, plan.chunkLens, info.chunkHashes) && Initial(checkpointed, k0);
      for index := 0 to |plan.chunkLens|
        invariant sink.finalized == old(sink.finalized) && providers <= known && old(tick) <= tick
        invariant env.AllFound(providers) ==> env.AllFound(known)
        invariant state.chunkLens == plan.chunkLens && Initial(state.doneRanges, index)
        invariant |absorbed| == Offset(plan.chunkLens, index)
        invariant Attributed(env.sha, plan.chunkLens, info.chunkHashes, absorbed, index)
        invariant sink.Undisturbed() ==> StartsWith(absorbed)
        invariant store.checkpoint == old(store.checkpoint)
                  || (store.checkpoint.Some? && exists d: nat :: Initial(store.checkpoint.value.doneRanges, d))
        invariant InOrder(old(store.OnDisk()), store.OnDisk())
        invariant once ==> k == Max(k0, index) && Resumable(k, plan.chunkLens, info.chunkHashes)
      {
        var chunk;
        ghost var (disk, now) := (store.OnDisk(), tick);
        chunk, known, k := StageOne(info, plan, index, checkpointed, state, known, absorbed, s, k0, k);
        InOrderStep(old(store.OnDisk()), disk, store.OnDisk());
        state := state.(doneRanges := state.doneRanges + {index});
        if chunk.Err? {
          env.RelocatedSince(known, old(tick), now);
          return Err(chunk.error), known, k;
        }
        OffsetStep(plan.chunkLens, index);
        absorbed := absorbed + chunk.value;
      }
      return Ok(absorbed), known, k;
    }

    /** The checkpoint of this very chunking, or a fresh one. */
    method LoadOrFreshState(plan: ChunkPlan) returns (r: Result<Resume, DownloadError>)
      modifies store`ops
      ensures store.Keeps() ==> r.Ok?
      ensures r.Ok? ==>
                && r.value.state.chunkLens == plan.chunkLens
                && (r.value.resumesStaging <==>
                      store.checkpoint.Some? && store.checkpoint.value.chunkLens == plan.chunkLens)
                && r.value.state.doneRanges ==
                   if r.value.resumesStaging then store.checkpoint.value.doneRanges else {}
    {
      var loaded := store.Load();
      if loaded.Err? {
        return Err(loaded.error);
      }
      if loaded.value.Some? && loaded.value.value.chunkLens == plan.chunkLens {
        return Ok(Resume(loaded.value.value, true));
      }
      return Ok(Resume(NO_STATE.(totalLength := plan.totalSize, chunkLens := plan.chunkLens), false));
    }

    /** Lets the anchor read the staged module through the verified window and takes its verdict. */
    method AnchorGate(info: ModuleInfo, plan: ChunkPlan, ghost blob: Bytes, ghost s: Scenario)
      returns (verdict: ModuleAnchor, ghost seen: seq<AnchorRead>)
      requires plan.Of(info) && |blob| == plan.totalSize
      requires Attributed(env.sha, plan.chunkLens, info.chunkHashes, blob, |plan.chunkLens|)
      requires sink.Undisturbed() ==> StartsWith(blob)
      modifies sink
      ensures sink.finalized == old(sink.finalized)
      ensures sink.Undisturbed() ==> sink.buf == old(sink.buf)
      ensures verdict == env.anchorVerdict(|blob|, seen) && env.Asked(|blob|, seen) && env.Finished(|blob|, seen)
      ensures Injective(env.sha) || sink.Undisturbed() ==> forall i :: 0 <= i < |seen| ==> Env.Agrees(seen[i], blob)
      ensures sink.Works() && env.AnchorWorks(s.genuine) ==>
                verdict == if blob == s.genuine then Anchored else NotAnchored
    {
      var given: seq<AnchorRead> := [];
      var ask := env.anchorAsk(plan.totalSize, given);
      if sink.Undisturbed() {
        AttributedPrefix(env.sha, plan.chunkLens, info.chunkHashes, blob, sink.buf, |plan.chunkLens|);
      }
      ghost var works := sink.Works() && env.AnchorWorks(s.genuine);
      ghost var vouched := Injective(env.sha) || sink.Undisturbed();
      assert vouched ==> Vouched(env.sha, sink, plan, info.chunkHashes, blob);
      assert works ==> Staged(env.sha, sink, plan, info.chunkHashes);
      assert env.Asked(plan.totalSize, given);
      hide Attributed, Injective, Env.Asked;
      while |given| < env.anchorLimit && ask.Some?
        invariant sink.finalized == old(sink.finalized)
        invariant sink.Undisturbed() ==> sink.buf == old(sink.buf)
        invariant ask == env.anchorAsk(plan.totalSize, given) && env.Asked(plan.totalSize, given)
        invariant vouched ==> forall i :: 0 <= i < |given| ==> Env.Agrees(given[i], blob)
        invariant works ==> Env.AllGiven(given, blob)
        decreases env.anchorLimit - |given|
      {
        var (offset, len) := ask.value;
        var data := ReadStaged(env.sha, sink, plan, info.chunkHashes, offset, len, blob);
        env.AskedMore(plan.totalSize, given, AnchorRead(offset, len, data));
        given := given + [AnchorRead(offset, len, data)];
        ask := env.anchorAsk(plan.totalSize, given);
      }
      return env.anchorVerdict(plan.totalSize, given), given;
    }

    /** Promotes the staging area and drops the checkpoint; a refused promotion discards both. */
    method Finish(plan: ChunkPlan, ghost blob: Bytes) returns (r: Result<nat, PullFailure>, ghost promoted: bool)
      requires plan.totalSize == |blob| <= U64_MAX
      requires sink.Undisturbed() ==> StartsWith(blob)
      modifies sink, store`ops, store`checkpoint, store`saves
      ensures promoted ==>
                && sink.finalized && (sink.Undisturbed() ==> sink.buf == blob) && store.ops == old(store.ops) + 1
                && r == if store.faults(old(store.ops), Clearing) then Err(Terminal(State)) else Ok(|blob|)
      ensures !promoted ==> r.Err? && r.error.Terminal? && sink.finalized == old(sink.finalized)
      ensures sink.Works() ==> promoted
      ensures store.checkpoint == old(store.checkpoint) || store.checkpoint == None
      ensures store.saves == old(store.saves)
    {
      var shorn := sink.PromoteVerified(plan.totalSize);
      promoted := shorn.Ok?;
      if shorn.Err? {
        var cleared := store.Clear();
        var shortened := sink.Truncate(0);
        return Err(Terminal(shorn.error)), promoted;
      }
      var cleared := store.Clear();
      if !cleared {
        return Err(Terminal(State)), promoted;
      }
      return Ok(plan.totalSize), promoted;
    }

    /** What the two gates establish about a blob before it may be promoted: the descriptor's hashes, and the anchor's
        verdict on a full transcript of its own reads of that blob. */
    ghost predicate Gated(info: ModuleInfo, blob: Bytes, seen: seq<AnchorRead>) {
      && |blob| == info.totalSize
      && Attributed(env.sha, info.chunkLens, info.chunkHashes, blob, |info.chunkLens|)
      && env.sha(blob) == info.moduleHash
      && env.anchorVerdict(|blob|, seen) == Anchored && env.Asked(|blob|, seen) && env.Finished(|blob|, seen)
      && (Injective(env.sha) || sink.Undisturbed() ==> forall i :: 0 <= i < |seen| ==> Env.Agrees(seen[i], blob))
    }

    /** A promotion: the gated blob is what the sink now holds for good, and the result is an error exactly if the
        last store operation, which drops the checkpoint, failed. */
    ghost predicate Released(info: ModuleInfo, p: Pulled, r: Result<nat, DownloadError>)
      reads sink`finalized, sink`buf, store`ops
    {
      && sink.finalized && Gated(info, p.blob, p.seen) && (sink.Undisturbed() ==> sink.buf == p.blob)
      && store.ops > 0 && r == if store.faults(store.ops - 1, Clearing) then Err(State) else Ok(|p.blob|)
    }

    /** Nothing but holders can go wrong before promotion: local storage works, the anchor decides correctly, hashes
        do not collide. */
    ghost predicate Sound(s: Scenario) {
      LocalWorks() && env.AnchorWorks(s.genuine) && Injective(env.sha)
    }

    /** What a pull that proves nothing false fails with: a chunk nobody had, or no memory for the plan. */
    static predicate Unmade(e: DownloadError) { e == NotFound || e == DownloadError.Sink }

    /** One whole pull against one holder's descriptor: plan, resume, stage, gate, promote. */
    method PullWithDescriptor(info: ModuleInfo, providers: seq<Peer>, ghost s: Scenario, ghost k0: nat)
      returns (r: Result<nat, PullFailure>, known: seq<Peer>, ghost p: Pulled, ghost k: nat)
      requires env.maxModuleSize <= U64_MAX
      modifies this`tick, this`accepted, sink, store`ops, store`checkpoint, store`saves
      ensures providers <= known && old(tick) <= tick && (env.AllFound(providers) ==> env.AllFound(known))
      ensures p.promoted ==> Released(info, p, Plain(r)) && (r.Err? ==> r.error.Terminal?)
      ensures !p.promoted ==> r.Err? && sink.finalized == old(sink.finalized)
      ensures r.Err? && r.error.BadDescriptor? ==> r.error.error == DownloadError.Verify
      ensures r.Err? && r.error.BadDescriptor? && Injective(env.sha) && env.AnchorIsFair(s.genuine) ==>
                !Acceptable(env.sha, env.maxModuleSize, info, s.genuine)
      ensures Sound(s) && (forall t: nat :: env.canAllocate(t)) && !p.promoted
              && Acceptable(env.sha, env.maxModuleSize, info, s.genuine) ==>
                env.Relocated(known, old(tick)) && !(Servable(info, s) && forall p :: p in s.servers ==> p in known)
      ensures Sound(s) ==> if p.promoted then p.blob == s.genuine else !r.error.Terminal?
      ensures !WellFormed(info, env.maxModuleSize) ==> r == Err(BadDescriptor(DownloadError.Verify))
      ensures Sound(s) && !p.promoted && !r.error.BadDescriptor? ==>
                Unmade(r.error.error) && (env.Relocated(known, old(tick)) || exists t: nat :: !env.canAllocate(t))
      ensures InOrder(old(store.OnDisk()), store.OnDisk())
      ensures sink.Works() && old(Resumable(k0, s.lens, s.hashes))
              && info.chunkLens == s.lens && info.chunkHashes == s.hashes ==>
                CountsUp(accepted, k) && (r.Err? && !r.error.Terminal? ==> Resumable(k, s.lens, s.hashes))
    {
      known, p, k := providers, NOTHING, k0;
      hide Env.Relocated, Env.AllFound, Servable, Acceptable, Sink.Undisturbed, Env.AnchorWorks;
      AcceptableWellFormed(info, s);
      var planned := FromInfo(info, env.maxModuleSize, env.canAllocate(tick));
      tick := tick + 1;
      if planned.Err? {
        return Err(planned.error), known, p, k;
      }
      var plan := planned.value;
      var resume := LoadOrFreshState(plan);
      if resume.Err? {
        return Err(Terminal(resume.error)), known, p, k;
      }
      if !resume.value.resumesStaging {
        var reset := sink.Truncate(0);
        if !reset {
          return Err(Terminal(DownloadError.Sink)), known, p, k;
        }
      }
      var staged;
      staged, known, k := StageChunks(info, plan, resume.value.state.doneRanges,
                                      resume.value.state.(doneRanges := {}), providers, s, k0);
      if staged.Err? {
        env.RelocatedSince(known, old(tick), old(tick) + 1);
        return Err(staged.error), known, p, k;
      }
      r, p := GateAndPromote(info, plan, staged.value, s);
    }

    lemma AcceptableWellFormed(info: ModuleInfo, s: Scenario)
      ensures Acceptable(env.sha, env.maxModuleSize, info, s.genuine) ==>
                WellFormed(info, env.maxModuleSize) && Truthful(env.sha, info, s.genuine)
    {
      if Acceptable(env.sha, env.maxModuleSize, info, s.genuine) {
        AcceptableIsWellFormed(env.sha, env.maxModuleSize, info, s.genuine);
      }
    }

    /** The two fail-closed gates over the hashed bytes, then promotion. */
    method GateAndPromote(info: ModuleInfo, plan: ChunkPlan, assembled: Bytes, ghost s: Scenario)
      returns (r: Result<nat, PullFailure>, ghost p: Pulled)
      requires plan.Of(info) && |assembled| == plan.totalSize
      requires Attributed(env.sha, plan.chunkLens, info.chunkHashes, assembled, |plan.chunkLens|)
      requires sink.Undisturbed() ==> StartsWith(assembled)
      modifies sink, store`ops, store`checkpoint, store`saves
      ensures p.promoted ==> Released(info, p, Plain(r)) && (r.Err? ==> r.error.Terminal?)
      ensures !p.promoted ==> r.Err? && sink.finalized == old(sink.finalized)
      ensures r.Err? && r.error.BadDescriptor? ==> r.error.error == DownloadError.Verify
      ensures r.Err? && r.error.BadDescriptor? && Injective(env.sha) && env.AnchorIsFair(s.genuine) ==>
                !Truthful(env.sha, info, s.genuine)
      ensures r.Err? && !r.error.Terminal? ==>
                r.error.BadDescriptor? && store.checkpoint == old(store.checkpoint)
                && (sink.Undisturbed() ==> sink.buf == old(sink.buf))
      ensures Sound(s) && Truthful(env.sha, info, s.genuine) ==> p.promoted
      ensures Sound(s) ==> if p.promoted then p.blob == s.genuine else !r.error.Terminal?
      ensures store.checkpoint == old(store.checkpoint) || store.checkpoint == None
      ensures store.saves == old(store.saves)
    {
      p := NOTHING;
      if Injective(env.sha) && Truthful(env.sha, info, s.genuine) {
        AttributedIsGenuine(env.sha, plan.chunkLens, info.chunkHashes, assembled, s.genuine, |plan.chunkLens|);
        assert assembled == assembled[..plan.totalSize] == s.genuine[..plan.totalSize] == s.genuine;
      }
      hide Attributed, Injective;
      if env.sha(assembled) != info.moduleHash {
        return Err(BadDescriptor(DownloadError.Verify)), p;
      }
      if !sink.readBack {
        return Err(Terminal(DownloadError.Sink)), p;
      }
      var verdict;
      ghost var seen;
      verdict, seen := AnchorGate(info, plan, assembled, s);
      match verdict {
        case Anchored =>
          ghost var promoted;
          r, promoted := Finish(plan, assembled);
          p := Pulled(promoted, assembled, seen);
        case NotAnchored => r := Err(BadDescriptor(DownloadError.Verify));
        case Unavailable => r := Err(Terminal(State));
      }
    }

    /** How a pass over the holders not excluded ended: they were asked in order, each passed over but the last, and it
        ended with an answer, with a refusal that ends a pass, or with everyone asked. */
    ghost predicate Heard(r: Result<(Peer, ModuleInfo), DownloadError>, round: seq<Asking>, providers: seq<Peer>,
                          excluded: seq<Peer>, from: nat, to: nat) {
      && Pass(env, round) && Numbered(round, from, to) && Peers(round) <= Askable(providers, excluded)
      && match r
         case Ok(answer) =>
           round != [] && round[|round| - 1].peer == answer.0 && round[|round| - 1].reply == Answered(answer.1)
         case Err(e) =>
           || (e == NotFound && NoAnswer(env, round) && Peers(round) == Askable(providers, excluded))
           || (round != [] && round[|round| - 1].reply == Refused(e) && !e.IsRecoverable())
    }

    /** Asks each holder not excluded, in order, until one answers. */
    method FetchModuleInfo(providers: seq<Peer>, excluded: seq<Peer>, ghost attempt: nat, ghost honoured: bool)
      returns (r: Result<(Peer, ModuleInfo), DownloadError>, ghost round: seq<Asking>)
      modifies this`tick, this`asked
      ensures old(tick) <= tick && asked == old(asked) + round
      ensures Heard(r, round, providers, excluded, old(tick), tick) && Labelled(round, attempt, honoured)
    {
      var later;
      r, later, round := AskInTurn(providers, excluded, tick, attempt, honoured);
      tick, asked := later, asked + round;
    }

    /** The loop of `fetch_module_info`, its calls numbered from `now` on. */
    method AskInTurn(providers: seq<Peer>, excluded: seq<Peer>, now: nat, ghost attempt: nat, ghost honoured: bool)
      returns (r: Result<(Peer, ModuleInfo), DownloadError>, later: nat, ghost round: seq<Asking>)
      ensures now <= later && Heard(r, round, providers, excluded, now, later) && Labelled(round, attempt, honoured)
    {
      later, round := now, [];
      assert Askable(providers[..0], excluded) == [] == Peers(round) && NoAnswer(env, round);
      assert Numbered(round, now, later) && Labelled(round, attempt, honoured);
      hide *;
      for i := 0 to |providers|
        invariant Peers(round) == Askable(providers[..i], excluded) && NoAnswer(env, round)
        invariant now <= later && Numbered(round, now, later) && Labelled(round, attempt, honoured)
      {
        var peer := providers[i];
        NextAskable(providers, excluded, i);
        if peer !in excluded {
          var reply := env.moduleInfo(later, peer);
          OneMoreAsked(env, round, peer, now, later, attempt, honoured);
          EndsPass(reply);
          round := round + [Asking(peer, later, reply, attempt, honoured)];
          later := later + 1;
          match reply {
            case Answered(info) =>
              r := Ok((peer, info));
              HeardNow(r, round, providers, excluded, now, later);
              return;
            case Refused(e) =>
              if !e.IsRecoverable() {
                r := Err(e);
                HeardNow(r, round, providers, excluded, now, later);
                return;
              }
            case TimedOut =>
          }
        }
      }
      assert providers[..|providers|] == providers;
      NoAnswerPass(env, round, now, later);
      r := Err(NotFound);
      HeardNow(r, round, providers, excluded, now, later);
    }

    lemma EndsPass(reply: Reply<ModuleInfo>)
      ensures PassedOver(reply) <==> reply.TimedOut? || (reply.Refused? && reply.error.IsRecoverable())
    {
    }

    lemma HeardNow(r: Result<(Peer, ModuleInfo), DownloadError>, round: seq<Asking>, providers: seq<Peer>,
                   excluded: seq<Peer>, from: nat, to: nat)
      requires Pass(env, round) && Numbered(round, from, to) && Peers(round) <= Askable(providers, excluded)
      requires r.Ok? ==>
                 && round != [] && round[|round| - 1].peer == r.value.0
                 && round[|round| - 1].reply == Answered(r.value.1)
      requires r.Err? ==>
                 || (r.error == NotFound && NoAnswer(env, round) && Peers(round) == Askable(providers, excluded))
                 || (round != [] && round[|round| - 1].reply == Refused(r.error) && !r.error.IsRecoverable())
      ensures Heard(r, round, providers, excluded, from, to)
    {
      hide Pass, NoAnswer, Numbered, Askable, Peers, DownloadError.IsRecoverable;
    }

    /** What a pass gives: an answer, if failures are recoverable and someone who may be asked does not stay silent. */
    lemma HeardParts(r: Result<(Peer, ModuleInfo), DownloadError>, round: seq<Asking>, providers: seq<Peer>,
                     excluded: seq<Peer>, from: nat, to: nat)
      requires Heard(r, round, providers, excluded, from, to)
      ensures Pass(env, round) && Peers(round) <= Askable(providers, excluded)
      ensures r.Ok? ==>
                && round != [] && round[|round| - 1].peer == r.value.0
                && round[|round| - 1].reply == Answered(r.value.1)
      ensures r.Err? ==> Answerer(round) == {}
      ensures Askable(providers, excluded) == [] <==> round == []
      ensures r.Err? && round == [] ==> r.error == NotFound
      ensures r.Err? && round != [] ==>
                !round[|round| - 1].reply.Answered? && r.error == Ending(round[|round| - 1].reply)
      ensures r.Err? && env.FailuresRecoverable() ==>
                forall p :: p in Askable(providers, excluded) ==> env.Silent(p, from, to)
    {
      hide Askable;
      if r.Err? && NoAnswer(env, round) {
        NoAnswerPass(env, round, from, to);
      }
    }

    /** Everything `download` may assume for it to have to promote the genuine module, `since` being its next call: what
        is owed, and that past verdicts do not stand in the way. The honest holder is not among the `remembered` ones,
        or all located ones are, or all that are not remembered answer with something. */
    ghost predicate MustPromote(s: Scenario, located: seq<Peer>, since: nat, remembered: seq<Peer>) {
      && env.downloadable && Owed(s, located, since)
      && (s.honest !in remembered || env.OthersAnswer(remembered) || forall p :: p in located ==> p in remembered)
    }

    /** An honest holder is located, servers are in reach, liars and missed calls leave an attempt, and nothing else
        fails for good. */
    ghost predicate Owed(s: Scenario, located: seq<Peer>, since: nat) {
      && env.Tells(s.honest, s.misses, s.genuine) && s.honest in located
      && env.Supplied(s.servers, s.genuine) && env.InReach(s.servers, located, since)
      && env.OnlyLiarsLie(s.liars, s.genuine) && |s.liars| + |s.misses| < MAX_DESCRIPTOR_ATTEMPTS
      && env.FailuresRecoverable() && Sound(s)
    }

    /** Against an acceptable descriptor, with servers in reach, only a promotion is left. */
    lemma MustHavePulled(info: ModuleInfo, providers: seq<Peer>, known: seq<Peer>, now: nat, s: Scenario,
                         promoted: bool)
      requires providers <= known
      requires Sound(s) && (forall t: nat :: env.canAllocate(t)) && !promoted
               && Acceptable(env.sha, env.maxModuleSize, info, s.genuine) ==>
                 env.Relocated(known, now) && !(Servable(info, s) && forall p :: p in s.servers ==> p in known)
      ensures Sound(s) && env.FailuresRecoverable()
              && env.Supplied(s.servers, s.genuine) && env.InReach(s.servers, providers, now) ==>
                promoted || !Acceptable(env.sha, env.maxModuleSize, info, s.genuine)
    {
      hide Sound, Acceptable, Env.Supplied, Env.InReach, Env.Relocated;
      if env.InReach(s.servers, providers, now) && env.Relocated(known, now) {
        env.Reached(s.servers, providers, known, now, now);
      }
    }

    /** One attempt: pulls against `source`'s descriptor and, if that fails for the descriptor, demotes `source`. */
    method Attempt(source: Peer, info: ModuleInfo, providers: seq<Peer>, exclusions: DescriptorExclusions,
                   ghost from: nat, ghost s: Scenario, ghost k0: nat)
      returns (r: Result<nat, PullFailure>, known: seq<Peer>, ghost p: Pulled, ghost k: nat)
      requires env.maxModuleSize <= U64_MAX && from < |asked|
      requires asked[|asked| - 1].peer == source && asked[|asked| - 1].reply == Answered(info)
      modifies this`tick, this`accepted, sink, store, exclusions`demotedHere
      ensures providers <= known && old(tick) <= tick && (env.AllFound(providers) ==> env.AllFound(known))
      ensures p.promoted ==> Released(info, p, Plain(r)) && (r.Err? ==> r.error.Terminal?)
      ensures !p.promoted ==> r.Err? && sink.finalized == old(sink.finalized)
      ensures store.blamed == old(store.blamed) + if r.Err? && r.error.BadDescriptor? then [source] else []
      ensures r.Err? && r.error.BadDescriptor? ==>
                r.error.error == DownloadError.Verify && BlamedFairly(env, [], [source], s.genuine, asked, from)
      ensures !WellFormed(info, env.maxModuleSize) ==> r.Err? && r.error.BadDescriptor?
      ensures Sound(s) && !p.promoted ==> !r.error.Terminal? && (!r.error.BadDescriptor? ==> Unmade(r.error.error))
      ensures exclusions.demotedHere ==
              old(exclusions.demotedHere) + if r.Err? && !r.error.Terminal? then [source] else []
      ensures Sound(s) && env.FailuresRecoverable()
              && env.Supplied(s.servers, s.genuine) && env.InReach(s.servers, providers, old(tick)) ==>
                if p.promoted then p.blob == s.genuine
                else !r.error.Terminal? && !Acceptable(env.sha, env.maxModuleSize, info, s.genuine)
      ensures sink.Works() && old(Resumable(k0, s.lens, s.hashes)) ==>
                info.chunkLens == s.lens && info.chunkHashes == s.hashes ==>
                  CountsUp(accepted, k) && (r.Err? && !r.error.Terminal? ==> Resumable(k, s.lens, s.hashes))
      ensures InOrder(old(store.OnDisk()), store.OnDisk())
    {
      hide *;
      ghost var now := tick;
      r, known, p, k := PullWithDescriptor(info, providers, s, k0);
      MustHavePulled(info, providers, known, now, s, p.promoted);
      if r.Err? && !r.error.Terminal? {
        if r.error.BadDescriptor? {
          BlamedNow(env, source, info, s.genuine, asked, from);
          store.RecordBadDescriptor(source);
        }
        exclusions.Demote(source);
      }
    }

    static ghost predicate Missed(missed: set<nat>, now: nat, s: Scenario) {
      missed <= s.misses && forall t :: t in missed ==> t < now
    }

    /** Each attempt before call `now` went to a liar, now demoted, or to a call the honest holder missed. */
    static ghost predicate Spent(demoted: set<Peer>, attempts: nat, now: nat, s: Scenario) {
      && demoted <= s.liars && s.honest !in demoted
      && exists missed :: Missed(missed, now, s) && |demoted| + |missed| == attempts
    }

    /** Past verdicts were dropped only as a last resort: no other holder is left once they are no longer honoured. */
    static ghost predicate Spares(start: Start, honours: bool, demoted: set<Peer>, log: seq<Asking>) {
      && LastResort(log, start.from, start.located, start.remembered)
      && (forall p :: p in demoted ==> AnsweredBefore(log, start.from, |log|, p))
      && if honours then start.remembered != []
         else start.remembered == [] || forall p :: p in start.located ==> p in start.remembered || p in demoted
    }

    /** The blame log grew by `peer` in this call. */
    static ghost predicate Added(was: seq<Peer>, now: seq<Peer>, peer: Peer) {
      exists k :: |was| <= k < |now| && now[k] == peer
    }

    /** Of the holders in `among`, each that answered with an unusable descriptor was blamed for it. */
    ghost predicate Caught(log: seq<Asking>, from: nat, among: set<Peer>, was: seq<Peer>, now: seq<Peer>) {
      forall k ::
        from <= k < |log| && log[k].reply.Answered? && log[k].peer in among
        && !WellFormed(log[k].reply.value, env.maxModuleSize) ==>
          Added(was, now, log[k].peer)
    }

    /** So was each holder that answered so in this call. */
    ghost predicate AllCaught(log: seq<Asking>, from: nat, was: seq<Peer>, now: seq<Peer>) {
      forall k ::
        from <= k < |log| && log[k].reply.Answered? && !WellFormed(log[k].reply.value, env.maxModuleSize) ==>
          Added(was, now, log[k].peer)
    }

    /** What holds between rounds, `attempts` of which are spent: `demoted` are excluded for good, and every holder
        that answered in this call is among `answered`. */
    ghost predicate Fair(start: Start, exclusions: DescriptorExclusions, demoted: set<Peer>, answered: set<Peer>,
                         attempts: nat, providers: seq<Peer>, k: nat, s: Scenario)
      reads this`tick, this`accepted, this`asked
      reads sink`finalized, sink`buf, store`blamed, store`checkpoint, store`saves, exclusions
    {
      && sink.finalized == start.finalized && Logged(env, asked, start.from, answered)
      && BlamedFairly(env, start.blamed, store.blamed, s.genuine, asked, start.from)
      && (forall p :: Added(start.blamed, store.blamed, p) ==> p in demoted)
      && Caught(asked, start.from, demoted, start.blamed, store.blamed)
      && InOrder(start.disk, store.OnDisk())
      && (forall p :: p in exclusions.demotedHere <==> p in demoted) && exclusions.remembered == start.remembered
      && start.located <= providers && env.AllFound(providers) && start.since <= tick
      && Spares(start, exclusions.trustsMemory, demoted, asked)
      && (start.once ==> Resumable(k, s.lens, s.hashes))
      && (start.must ==> Spent(demoted, attempts, tick, s))
    }

    /** How a download that promotes nothing accounts for its error `e`. If the last request was answered, that pull's
        failure is reported, but for one case: past verdicts were still honoured and attempts were left, so that the
        next ones ask nobody. If it was not answered, that is what is reported. */
    static ghost predicate Explained(log: seq<Asking>, from: nat, was: seq<Peer>, now: seq<Peer>, sound: bool,
                                     e: DownloadError) {
      && from < |log|
      && var last := log[|log| - 1];
         if !last.reply.Answered? then e == Ending(last.reply)
         else if last.honoured && last.attempt + 1 < MAX_DESCRIPTOR_ATTEMPTS then
           sound || Added(was, now, last.peer) ==> e == NotFound
         else if Added(was, now, last.peer) then e == DownloadError.Verify
         else sound ==> Unmade(e)
    }

    /** The last answer's pull failed with `e`. */
    static ghost predicate Failed(log: seq<Asking>, from: nat, was: seq<Peer>, now: seq<Peer>, attempt: nat,
                                  honoured: bool, sound: bool, e: DownloadError) {
      && from < |log|
      && var last := log[|log| - 1];
         && last.reply.Answered? && last.attempt == attempt && last.honoured == honoured
         && if Added(was, now, last.peer) then e == DownloadError.Verify else sound ==> Unmade(e)
    }

    /** The last answer's pull failed while past verdicts were honoured and attempts were left. */
    static ghost predicate Dangling(log: seq<Asking>, from: nat) {
      && from < |log|
      && var last := log[|log| - 1];
         last.reply.Answered? && last.honoured && last.attempt + 1 < MAX_DESCRIPTOR_ATTEMPTS
    }

    /** While success is owed a round has someone to hear: the honest holder, or one that answers with something. */
    ghost predicate Hopeful(start: Start, exclusions: DescriptorExclusions, s: Scenario)
      reads exclusions`remembered, exclusions`trustsMemory
    {
      s.honest !in exclusions.Memory() || env.OthersAnswer(start.remembered)
    }

    /** What `download` promises when it returns. */
    ghost predicate Concluded(start: Start, r: Result<nat, DownloadError>, info: ModuleInfo, p: Pulled, s: Scenario)
      reads this`accepted, this`asked, sink`finalized, sink`buf, store`blamed, store`checkpoint, store`saves, store`ops
    {
      && start.from <= |asked| && Real(env, asked, start.from) && NeverReasked(asked, start.from)
      && LastResort(asked, start.from, start.located, start.remembered)
      && Tried(env, asked, start.from, MAX_DESCRIPTOR_ATTEMPTS)
      && AllCaught(asked, start.from, start.blamed, store.blamed)
      && BlamedFairly(env, start.blamed, store.blamed, s.genuine, asked, start.from)
      && InOrder(start.disk, store.OnDisk())
      && (start.once ==> CountsUp(accepted, |accepted|))
      && (p.promoted ==> Released(info, p, r) && start.from < |asked| && asked[|asked| - 1].reply == Answered(info))
      && (!p.promoted ==>
            && r.Err? && sink.finalized == start.finalized
            && Explained(asked, start.from, start.blamed, store.blamed, Sound(s), r.error))
      && (start.must ==> p.promoted && p.blob == s.genuine)
    }

    /** A round that may fail leaves everything promised except success. */
    lemma GivesUp(start: Start, exclusions: DescriptorExclusions, demoted: set<Peer>, attempts: nat,
                  providers: seq<Peer>, k: nat, s: Scenario, e: DownloadError, info: ModuleInfo)
      requires Fair(start, exclusions, demoted, demoted, attempts, providers, k, s) && !start.must
      requires Tried(env, asked, start.from, MAX_DESCRIPTOR_ATTEMPTS)
      requires Explained(asked, start.from, start.blamed, store.blamed, Sound(s), e)
      ensures Concluded(start, Err(e), info, NOTHING, s)
    {
      hide Real, NeverReasked, BlamedFairly, InOrder, LastResort, Tried, Explained, Added, WellFormed;
    }

    /** While success is owed attempts remain, and so does the honest holder, unless past verdicts exclude it. */
    lemma HonestLeft(start: Start, exclusions: DescriptorExclusions, demoted: set<Peer>, answered: set<Peer>,
                     attempts: nat, providers: seq<Peer>, k: nat, s: Scenario)
      requires Fair(start, exclusions, demoted, answered, attempts, providers, k, s) && start.must
      requires Owed(s, start.located, start.since)
      ensures attempts < MAX_DESCRIPTOR_ATTEMPTS && sink.Undisturbed() && env.FailuresRecoverable() && Sound(s)
      ensures s.honest !in exclusions.Memory() ==>
                s.honest in Askable(providers, exclusions.Excluded()) && exclusions.UsableHolders(providers) > 0
    {
      hide Injective, Logged, BlamedFairly, InOrder, Resumable, Spares, Added, Caught, Env.AllFound, Env.Tells,
           Env.Supplied, Env.InReach, Askable, Env.AnchorWorks, Env.OnlyLiarsLie, Env.FailuresRecoverable,
           DescriptorExclusions.UsableHolders;
      AttemptsLeft(demoted, attempts, tick, s);
      assert s.honest in providers;
    }

    static lemma AttemptsLeft(demoted: set<Peer>, attempts: nat, now: nat, s: Scenario)
      requires Spent(demoted, attempts, now, s)
      ensures attempts <= |s.liars| + |s.misses|
    {
      var missed :| Missed(missed, now, s) && |demoted| + |missed| == attempts;
      Subset(demoted, s.liars);
      Subset(missed, s.misses);
    }

    static lemma SpentLater(demoted: set<Peer>, attempts: nat, now: nat, later: nat, s: Scenario)
      requires Spent(demoted, attempts, now, s) && now <= later
      ensures Spent(demoted, attempts, later, s)
    {
      var missed :| Missed(missed, now, s) && |demoted| + |missed| == attempts;
      assert Missed(missed, later, s);
    }

    /** A round in which the honest holder missed a call spends that call. */
    lemma OneMoreMissed(demoted: set<Peer>, attempts: nat, now: nat, later: nat, s: Scenario)
      requires Spent(demoted, attempts, now, s)
      requires env.Tells(s.honest, s.misses, s.genuine) && env.Silent(s.honest, now, later)
      ensures Spent(demoted, attempts + 1, later, s)
    {
      var missed :| Missed(missed, now, s) && |demoted| + |missed| == attempts;
      var t: nat :| now <= t < later && !env.moduleInfo(t, s.honest).Answered?;
      assert t in s.misses && t !in missed;
      assert Missed(missed + {t}, later, s);
    }

    /** What `Fair` consists of. */
    lemma FairParts(start: Start, exclusions: DescriptorExclusions, demoted: set<Peer>, answered: set<Peer>,
                    attempts: nat, providers: seq<Peer>, k: nat, s: Scenario)
      requires Fair(start, exclusions, demoted, answered, attempts, providers, k, s)
      ensures sink.finalized == start.finalized && Logged(env, asked, start.from, answered)
      ensures BlamedFairly(env, start.blamed, store.blamed, s.genuine, asked, start.from)
      ensures InOrder(start.disk, store.OnDisk())
      ensures forall p :: p in exclusions.demotedHere <==> p in demoted
      ensures forall p :: p in demoted ==> p in exclusions.Excluded()
      ensures exclusions.remembered == start.remembered
      ensures forall p :: Added(start.blamed, store.blamed, p) ==> p in demoted
      ensures Caught(asked, start.from, demoted, start.blamed, store.blamed)
      ensures start.located <= providers && env.AllFound(providers) && start.since <= tick
      ensures Spares(start, exclusions.trustsMemory, demoted, asked)
      ensures start.once ==> Resumable(k, s.lens, s.hashes)
      ensures start.must ==> Spent(demoted, attempts, tick, s)
    {
      hide Resumable, Logged, BlamedFairly, InOrder, Spares, Spent, Added, Caught, Env.AllFound;
    }

    lemma StillFair(start: Start, exclusions: DescriptorExclusions, demoted: set<Peer>, answered: set<Peer>,
                    attempts: nat, providers: seq<Peer>, k: nat, s: Scenario)
      requires sink.finalized == start.finalized && Logged(env, asked, start.from, answered)
      requires BlamedFairly(env, start.blamed, store.blamed, s.genuine, asked, start.from)
      requires InOrder(start.disk, store.OnDisk())
      requires forall p :: p in exclusions.demotedHere <==> p in demoted
      requires exclusions.remembered == start.remembered
      requires forall p :: Added(start.blamed, store.blamed, p) ==> p in demoted
      requires Caught(asked, start.from, demoted, start.blamed, store.blamed)
      requires start.located <= providers && env.AllFound(providers) && start.since <= tick
      requires Spares(start, exclusions.trustsMemory, demoted, asked)
      requires start.once ==> Resumable(k, s.lens, s.hashes)
      requires start.must ==> Spent(demoted, attempts, tick, s)
      ensures Fair(start, exclusions, demoted, answered, attempts, providers, k, s)
    {
      hide Resumable, Logged, BlamedFairly, InOrder, Spares, Spent, Added, Caught, Env.AllFound;
    }

    lemma NowConcluded(start: Start, r: Result<nat, DownloadError>, info: ModuleInfo, p: Pulled, k: nat, s: Scenario,
                       demoted: set<Peer>, answered: set<Peer>, honours: bool)
      requires Logged(env, asked, start.from, answered) && Spares(start, honours, demoted, asked)
      requires Tried(env, asked, start.from, MAX_DESCRIPTOR_ATTEMPTS)
      requires AllCaught(asked, start.from, start.blamed, store.blamed)
      requires BlamedFairly(env, start.blamed, store.blamed, s.genuine, asked, start.from)
      requires InOrder(start.disk, store.OnDisk()) && (start.once ==> CountsUp(accepted, k))
      requires p.promoted ==>
                 Released(info, p, r) && start.from < |asked| && asked[|asked| - 1].reply == Answered(info)
      requires !p.promoted ==>
                 && r.Err? && sink.finalized == start.finalized
                 && Explained(asked, start.from, start.blamed, store.blamed, Sound(s), r.error)
      requires start.must ==> p.promoted && p.blob == s.genuine
      ensures Concluded(start, r, info, p, s)
    {
      hide Released, Real, NeverReasked, BlamedFairly, InOrder, LastResort, Tried, Explained, AllCaught;
    }

    /** The part of a round that asks for a descriptor. */
    method Ask(exclusions: DescriptorExclusions, providers: seq<Peer>, ghost attempts: nat, ghost start: Start,
               ghost demoted: set<Peer>, ghost k0: nat, ghost s: Scenario)
      returns (answer: Result<(Peer, ModuleInfo), DownloadError>)
      requires Fair(start, exclusions, demoted, demoted, attempts, providers, k0, s)
      requires start.must ==>
                 && Owed(s, start.located, start.since) && Hopeful(start, exclusions, s)
                 && exclusions.UsableHolders(providers) > 0
      requires Tried(env, asked, start.from, attempts)
      requires exclusions.UsableHolders(providers) > 0 ==> attempts <= |asked| - start.from
      modifies this`tick, this`asked
      ensures old(asked) <= asked && Tried(env, asked, start.from, attempts + 1)
      ensures if exclusions.UsableHolders(providers) > 0 then |asked| > |old(asked)|
              else asked == old(asked) && answer.Err?
      ensures answer.Err? ==> Fair(start, exclusions, demoted, demoted, attempts + 1, providers, k0, s)
      ensures answer.Err? ==> Unmet(old(asked), asked, answer.error)
      ensures answer.Ok? ==>
                && start.from < |asked| && answer.value.0 !in demoted
                && asked[|asked| - 1].peer == answer.value.0
                && asked[|asked| - 1].reply == Answered(answer.value.1)
                && asked[|asked| - 1].attempt == attempts && asked[|asked| - 1].honoured == exclusions.trustsMemory
                && Fair(start, exclusions, demoted, demoted + {answer.value.0}, attempts, providers, k0, s)
    {
      hide *;
      FairParts(start, exclusions, demoted, demoted, attempts, providers, k0, s);
      if start.must {
        HonestLeft(start, exclusions, demoted, demoted, attempts, providers, k0, s);
      }
      ghost var (before, round, now) := (asked, [], tick);
      SomeoneAskable(exclusions, providers, start, s);
      answer, round := FetchModuleInfo(providers, exclusions.Excluded(), attempts, exclusions.trustsMemory);
      HeardParts(answer, round, providers, exclusions.Excluded(), now, tick);
      FreshPass(round, providers, exclusions.Excluded(), demoted);
      PassLogged(env, before, start.from, demoted, round);
      BlamedStill(env, start.blamed, store.blamed, s.genuine, before, start.from, round);
      LogStarts(before, start.from, demoted);
      SparesStill(start, exclusions, demoted, before, round, attempts);
      PassFound(round, providers, exclusions.Excluded());
      CaughtStill(before, round, start.from, demoted, start.blamed, store.blamed);
      AskableUsable(exclusions, providers);
      TriedMore(env, before, start.from, attempts, round, exclusions.trustsMemory);
      if answer.Err? {
        UnmetNow(before, round, answer.error);
        assert demoted + Answerer(round) == demoted;
        if start.must {
          Unheard(start, exclusions, providers, demoted, attempts, now, s);
        }
        StillFair(start, exclusions, demoted, demoted, attempts + 1, providers, k0, s);
      } else {
        if start.must {
          SpentLater(demoted, attempts, now, tick, s);
        }
        LastAnswer(before, round, answer.value.0, answer.value.1, attempts, exclusions.trustsMemory);
        StillFair(start, exclusions, demoted, demoted + {answer.value.0}, attempts, providers, k0, s);
      }
    }

    /** A pass without an answer: it asked nobody, or ended on a reply that explains `e`. */
    static ghost predicate Unmet(before: seq<Asking>, now: seq<Asking>, e: DownloadError) {
      if now == before then e == NotFound
      else |now| > 0 && !now[|now| - 1].reply.Answered? && e == Ending(now[|now| - 1].reply)
    }

    static lemma UnmetNow(before: seq<Asking>, round: seq<Asking>, e: DownloadError)
      requires round == [] ==> e == NotFound
      requires round != [] ==> !round[|round| - 1].reply.Answered? && e == Ending(round[|round| - 1].reply)
      ensures Unmet(before, before + round, e)
    {
      if round != [] {
        assert |before + round| > |before|;
      }
    }

    lemma CaughtStill(log: seq<Asking>, round: seq<Asking>, from: nat, demoted: set<Peer>, was: seq<Peer>,
                      now: seq<Peer>)
      requires Caught(log, from, demoted, was, now) && forall p :: p in Peers(round) ==> p !in demoted
      ensures Caught(log + round, from, demoted, was, now)
    {
      hide Added, WellFormed;
      forall k | |log| <= k < |log + round| ensures (log + round)[k].peer !in demoted {
        assert Peers(round)[k - |log|] == (log + round)[k].peer;
      }
    }

    /** The last to answer is blamed if its descriptor is unusable, and keeps no one else from it. */
    lemma CaughtMore(from: nat, demoted: set<Peer>, answered: set<Peer>, was: seq<Peer>, before: seq<Peer>,
                     now: seq<Peer>)
      requires from < |asked| && Logged(env, asked, from, answered) && asked[|asked| - 1].reply.Answered?
      requires was <= before <= now && Caught(asked, from, demoted, was, before)
      requires WellFormed(asked[|asked| - 1].reply.value, env.maxModuleSize)
               || now == before + [asked[|asked| - 1].peer]
      ensures Caught(asked, from, demoted + {asked[|asked| - 1].peer}, was, now)
      ensures answered <= demoted + {asked[|asked| - 1].peer} ==> AllCaught(asked, from, was, now)
    {
      hide Real, WellFormed;
      var last := |asked| - 1;
      forall k | from <= k < |asked| && asked[k].reply.Answered? && asked[k].peer in demoted + {asked[last].peer}
                 && !WellFormed(asked[k].reply.value, env.maxModuleSize)
        ensures Added(was, now, asked[k].peer)
      {
        if k == last {
          assert now[|before|] == asked[last].peer;
        } else {
          var j :| |was| <= j < |before| && before[j] == asked[k].peer;
          assert now[j] == before[j];
        }
      }
    }

    lemma PassFound(round: seq<Asking>, providers: seq<Peer>, excluded: seq<Peer>)
      requires Peers(round) <= Askable(providers, excluded) && env.AllFound(providers)
      ensures env.AllFound(Peers(round))
    {
      hide Env.Found;
      forall p | p in Peers(round) ensures env.Found(p) {
        assert p in Askable(providers, excluded);
      }
    }

    lemma AskableUsable(exclusions: DescriptorExclusions, providers: seq<Peer>)
      ensures exclusions.UsableHolders(providers) == 0 <==> Askable(providers, exclusions.Excluded()) == []
    {
      var (some, excluded) := (Askable(providers, exclusions.Excluded()), exclusions.Excluded());
      hide Askable, DescriptorExclusions.UsableHolders, DescriptorExclusions.Excluded;
      if some != [] {
        assert some[0] in some;
      }
      if exclusions.UsableHolders(providers) > 0 {
        var p :| p in providers && p !in excluded;
        assert p in some;
      }
    }

    /** A holder that is neither demoted nor remembered may be asked, if one is usable and verdicts still count. */
    lemma SomeoneAskable(exclusions: DescriptorExclusions, providers: seq<Peer>, start: Start, s: Scenario)
      requires exclusions.remembered == start.remembered
      ensures exclusions.UsableHolders(providers) > 0 && s.honest in exclusions.Memory() ==>
                exists p :: p in Askable(providers, exclusions.Excluded()) && p !in start.remembered
    {
      hide Askable, DescriptorExclusions.UsableHolders;
      if exclusions.UsableHolders(providers) > 0 && s.honest in exclusions.Memory() {
        var p :| p in providers && p !in exclusions.Excluded();
        assert p in Askable(providers, exclusions.Excluded());
      }
    }

    /** A round that heard no one although success is owed: the honest holder missed a call in it. */
    lemma Unheard(start: Start, exclusions: DescriptorExclusions, providers: seq<Peer>, demoted: set<Peer>,
                  attempts: nat, now: nat, s: Scenario)
      requires Owed(s, start.located, start.since) && Hopeful(start, exclusions, s)
      requires Spent(demoted, attempts, now, s)
      requires forall p :: p in Askable(providers, exclusions.Excluded()) ==> env.Silent(p, now, tick)
      requires s.honest !in exclusions.Memory() ==> s.honest in Askable(providers, exclusions.Excluded())
      requires s.honest in exclusions.Memory() ==>
                 exists p :: p in Askable(providers, exclusions.Excluded()) && p !in start.remembered
      ensures Spent(demoted, attempts + 1, tick, s)
    {
      hide Spent, Env.Tells, Env.Supplied, Env.InReach, Env.OnlyLiarsLie, Env.FailuresRecoverable, Sound, Askable;
      assert env.OthersAnswer(start.remembered) ==> forall p :: env.Silent(p, now, tick) ==> p in start.remembered;
      if s.honest !in exclusions.Memory() {
        OneMoreMissed(demoted, attempts, now, tick, s);
      }
    }

    static lemma FreshPass(round: seq<Asking>, providers: seq<Peer>, excluded: seq<Peer>, demoted: set<Peer>)
      requires Peers(round) <= Askable(providers, excluded) && forall p :: p in demoted ==> p in excluded
      ensures forall p :: p in Peers(round) ==> p !in demoted && p !in excluded
    {
      forall p | p in Peers(round) ensures p !in demoted && p !in excluded {
        assert p in Askable(providers, excluded);
      }
    }

    /** A pass over holders not excluded asks a remembered one only if no one else was left. */
    lemma SparesStill(start: Start, exclusions: DescriptorExclusions, demoted: set<Peer>, log: seq<Asking>,
                      round: seq<Asking>, attempts: nat)
      requires Spares(start, exclusions.trustsMemory, demoted, log) && start.from <= |log|
      requires exclusions.remembered == start.remembered && Labelled(round, attempts, exclusions.trustsMemory)
      requires forall p :: p in Peers(round) ==> p !in exclusions.Excluded()
      ensures Spares(start, exclusions.trustsMemory, demoted, log + round)
    {
      hide LastResort, AnsweredBefore, Peers, Labelled;
      LastResortStill(log, start.from, start.located, start.remembered, round, attempts, exclusions.trustsMemory);
      forall p | p in demoted ensures AnsweredBefore(log + round, start.from, |log + round|, p) {
        StillAnswered(log, start.from, |log|, p, log + round, |log + round|);
      }
    }

    static lemma LastAnswer(before: seq<Asking>, round: seq<Asking>, source: Peer, info: ModuleInfo, attempt: nat,
                            honoured: bool)
      requires Labelled(round, attempt, honoured)
      requires round != [] && round[|round| - 1].peer == source && round[|round| - 1].reply == Answered(info)
      ensures Answerer(round) == {source} && |before + round| > |before|
      ensures (before + round)[|before + round| - 1] == round[|round| - 1]
      ensures source in Peers(round)
      ensures round[|round| - 1].attempt == attempt && round[|round| - 1].honoured == honoured
    {
      assert Peers(round)[|round| - 1] == source;
    }

    lemma LogStarts(log: seq<Asking>, from: nat, answered: set<Peer>)
      requires Logged(env, log, from, answered)
      ensures from <= |log|
    {
    }

    /** One round: asks for a descriptor and, if one arrives, attempts a pull against it. */
    method Round(exclusions: DescriptorExclusions, providers: seq<Peer>, ghost attempts: nat, ghost start: Start,
                 ghost demoted: set<Peer>, ghost k0: nat, ghost s: Scenario)
      returns (r: Outcome, known: seq<Peer>, ghost info: ModuleInfo, ghost p: Pulled, ghost demoted': set<Peer>,
               ghost k: nat)
      requires env.maxModuleSize <= U64_MAX
      requires Fair(start, exclusions, demoted, demoted, attempts, providers, k0, s)
      requires start.must ==>
                 && Owed(s, start.located, start.since) && Hopeful(start, exclusions, s)
                 && exclusions.UsableHolders(providers) > 0
      requires start.once ==> sink.Works() && env.DescriptorsAgree(s.lens, s.hashes)
      requires Tried(env, asked, start.from, attempts) && attempts < MAX_DESCRIPTOR_ATTEMPTS
      requires exclusions.UsableHolders(providers) > 0 ==> attempts <= |asked| - start.from
      modifies this`tick, this`accepted, this`asked, sink, store, exclusions`demotedHere
      ensures old(asked) <= asked
      ensures r.Over? ==> Concluded(start, r.result, info, p, s)
      ensures !r.Over? ==> Fair(start, exclusions, demoted', demoted', attempts + 1, known, k, s)
      ensures Tried(env, asked, start.from, attempts + 1)
      ensures if old(exclusions.UsableHolders(providers)) > 0 then |asked| > |old(asked)|
              else asked == old(asked) && r.Unanswered?
      ensures r.Unanswered? ==>
                && known == providers && demoted' == demoted && exclusions.demotedHere == old(exclusions.demotedHere)
                && Unmet(old(asked), asked, r.error)
      ensures r.Demoted? ==>
                && demoted' != {}
                && Failed(asked, start.from, start.blamed, store.blamed, attempts, exclusions.trustsMemory, Sound(s),
                          r.error)
    {
      known, k, info, p, demoted' := providers, k0, ModuleInfo(0, "", [], []), NOTHING, demoted;
      hide *;
      var answer := Ask(exclusions, providers, attempts, start, demoted, k0, s);
      if answer.Err? {
        return Unanswered(answer.error), known, info, p, demoted', k;
      }
      info := answer.value.1;
      r, known, p, demoted', k :=
        Follow(answer.value.0, answer.value.1, exclusions, providers, attempts, start, demoted, k0, s);
    }

    /** The part of a round that follows an answer. */
    method Follow(source: Peer, info: ModuleInfo, exclusions: DescriptorExclusions, providers: seq<Peer>,
                  ghost attempts: nat, ghost start: Start, ghost demoted: set<Peer>, ghost k0: nat, ghost s: Scenario)
      returns (r: Outcome, known: seq<Peer>, ghost p: Pulled, ghost demoted': set<Peer>, ghost k: nat)
      requires env.maxModuleSize <= U64_MAX && start.from < |asked| && source !in demoted
      requires asked[|asked| - 1].peer == source && asked[|asked| - 1].reply == Answered(info)
      requires asked[|asked| - 1].attempt == attempts && asked[|asked| - 1].honoured == exclusions.trustsMemory
      requires Fair(start, exclusions, demoted, demoted + {source}, attempts, providers, k0, s)
      requires start.must ==> Owed(s, start.located, start.since)
      requires start.once ==> sink.Works() && env.DescriptorsAgree(s.lens, s.hashes)
      requires Tried(env, asked, start.from, attempts + 1) && attempts < MAX_DESCRIPTOR_ATTEMPTS
      modifies this`tick, this`accepted, sink, store, exclusions`demotedHere
      ensures r.Over? ==> Concluded(start, r.result, info, p, s)
      ensures r.Demoted? ==> Fair(start, exclusions, demoted', demoted', attempts + 1, known, k, s)
      ensures r.Demoted? ==>
                && demoted' != {}
                && Failed(asked, start.from, start.blamed, store.blamed, attempts, exclusions.trustsMemory, Sound(s),
                          r.error)
      ensures !r.Unanswered?
    {
      demoted' := demoted;
      hide *;
      FairParts(start, exclusions, demoted, demoted + {source}, attempts, providers, k0, s);
      ghost var blamed, disk, now := store.blamed, store.OnDisk(), tick;
      if start.must {
        HonestLeft(start, exclusions, demoted, demoted + {source}, attempts, providers, k0, s);
        StillInReach(start, providers, now, s);
      }
      RealAnswer(start.from, demoted + {source}, s);
      var pulled;
      pulled, known, p, k := Attempt(source, info, providers, exclusions, start.from, s, k0);
      BlamedOneMore(env, start.blamed, blamed, store.blamed, source, s.genuine, asked, start.from);
      InOrderStep(start.disk, disk, store.OnDisk());
      BlamedGrew(env, start.blamed, blamed, s.genuine, asked, start.from);
      AddedOneMore(start.blamed, blamed, store.blamed, source, demoted);
      if pulled.Ok? || pulled.error.Terminal? {
        if !p.promoted {
          EndsHere(start, source, pulled.error.error, s);
        }
        TriedWithin(start.from, attempts + 1);
        CaughtMore(start.from, demoted, demoted + {source}, start.blamed, blamed, store.blamed);
        NowConcluded(start, Plain(pulled), info, p, k, s, demoted, demoted + {source}, exclusions.trustsMemory);
        return Over(Plain(pulled)), known, p, demoted', k;
      }
      demoted' := demoted + {source};
      CaughtMore(start.from, demoted, demoted', start.blamed, blamed, store.blamed);
      if start.must {
        OneMoreLiar(demoted, attempts, now, tick, asked[|asked| - 1], info, start, s);
      }
      SparesDemoted(start, exclusions.trustsMemory, demoted, asked);
      FailedNow(start, attempts, exclusions.trustsMemory, pulled.error, blamed, s);
      StillFair(start, exclusions, demoted', demoted', attempts + 1, known, k, s);
      return Demoted(pulled.error.error), known, p, demoted', k;
    }

    /** What the blame log grows by is demoted. */
    static lemma AddedOneMore(was: seq<Peer>, before: seq<Peer>, after: seq<Peer>, source: Peer, demoted: set<Peer>)
      requires |was| <= |before| && (after == before || after == before + [source])
      requires forall p :: Added(was, before, p) ==> p in demoted
      ensures forall p :: Added(was, after, p) ==> p in demoted + {source}
      ensures after == before ==> forall p :: Added(was, after, p) ==> p in demoted
    {
      forall p | Added(was, after, p) ensures p in demoted + {source} {
        var k :| |was| <= k < |after| && after[k] == p;
        assert k < |before| ==> Added(was, before, p);
      }
    }

    /** A pull that is over without a promotion blamed nobody, and if nothing local could fail it cannot be. */
    lemma EndsHere(start: Start, source: Peer, e: DownloadError, s: Scenario)
      requires start.from < |asked| && asked[|asked| - 1].reply.Answered? && asked[|asked| - 1].peer == source
      requires !Sound(s) && !Added(start.blamed, store.blamed, source)
      ensures Explained(asked, start.from, start.blamed, store.blamed, Sound(s), e)
    {
      hide Sound, Added;
    }

    lemma TriedWithin(from: nat, attempts: nat)
      requires Tried(env, asked, from, attempts) && attempts <= MAX_DESCRIPTOR_ATTEMPTS
      ensures Tried(env, asked, from, MAX_DESCRIPTOR_ATTEMPTS)
    {
      hide Env.Found;
    }

    lemma FailedNow(start: Start, attempts: nat, honoured: bool, e: PullFailure, before: seq<Peer>, s: Scenario)
      requires start.from < |asked| && asked[|asked| - 1].reply.Answered?
      requires asked[|asked| - 1].attempt == attempts && asked[|asked| - 1].honoured == honoured
      requires start.blamed <= before
      requires if e.BadDescriptor? then store.blamed == before + [asked[|asked| - 1].peer]
               else !Added(start.blamed, store.blamed, asked[|asked| - 1].peer)
      requires if e.BadDescriptor? then e.error == DownloadError.Verify else Sound(s) ==> Unmade(e.error)
      ensures Failed(asked, start.from, start.blamed, store.blamed, attempts, honoured, Sound(s), e.error)
    {
      hide Sound, Unmade;
      if e.BadDescriptor? {
        assert store.blamed[|before|] == asked[|asked| - 1].peer;
      }
    }

    lemma StillInReach(start: Start, providers: seq<Peer>, now: nat, s: Scenario)
      requires Owed(s, start.located, start.since) && start.located <= providers && start.since <= now
      ensures env.Supplied(s.servers, s.genuine) && env.InReach(s.servers, providers, now)
    {
      hide Env.Tells, Env.Supplied, Env.OnlyLiarsLie, Env.FailuresRecoverable, Sound;
    }

    static lemma SparesDemoted(start: Start, honours: bool, demoted: set<Peer>, log: seq<Asking>)
      requires Spares(start, honours, demoted, log) && start.from < |log| && log[|log| - 1].reply.Answered?
      ensures Spares(start, honours, demoted + {log[|log| - 1].peer}, log)
    {
      hide LastResort;
    }

    /** The last answer was given by its holder, and if descriptors agree it carries the agreed chunking. */
    lemma RealAnswer(from: nat, answered: set<Peer>, s: Scenario)
      requires from < |asked| && Logged(env, asked, from, answered) && asked[|asked| - 1].reply.Answered?
      ensures var last := asked[|asked| - 1];
              && env.moduleInfo(last.at, last.peer) == last.reply
              && (env.DescriptorsAgree(s.lens, s.hashes) ==>
                    last.reply.value.chunkLens == s.lens && last.reply.value.chunkHashes == s.hashes)
    {
      hide NeverReasked, AnsweredIn;
    }

    /** At most `MAX_DESCRIPTOR_ATTEMPTS` rounds, dropping the remembered verdicts when they exclude everyone. */
    method Rounds(exclusions: DescriptorExclusions, located: seq<Peer>, ghost start: Start, ghost s: Scenario)
      returns (r: Result<nat, DownloadError>, ghost info: ModuleInfo, ghost p: Pulled)
      requires env.maxModuleSize <= U64_MAX
      requires Fair(start, exclusions, {}, {}, 0, located, 0, s)
      requires start.must ==>
                 && Owed(s, start.located, start.since)
                 && (Hopeful(start, exclusions, s) || exclusions.UsableHolders(located) == 0)
      requires start.once ==> sink.Works() && env.DescriptorsAgree(s.lens, s.hashes)
      requires start.from == |asked| && start.located != []
      requires exclusions.UsableHolders(located) == 0 ==> exclusions.trustsMemory
      modifies this, sink, store, exclusions
      ensures old(asked) <= asked && Concluded(start, r, info, p, s)
    {
      hide Gated, Sound, Owed, Concluded, Fair, Injective, Sink.Works, Hopeful, DescriptorExclusions.UsableHolders,
           Explained, Failed, Dangling, Unmet, Added, Env.Found;
      info, p := ModuleInfo(0, "", [], []), NOTHING;
      var providers, attempts := located, 0;
      ghost var k, demoted := 0, {};
      while true
        invariant attempts < MAX_DESCRIPTOR_ATTEMPTS && old(asked) <= asked
        invariant Fair(start, exclusions, demoted, demoted, attempts, providers, k, s)
        invariant start.must ==> Hopeful(start, exclusions, s) || exclusions.UsableHolders(providers) == 0
        invariant start.from <= |asked| && Tried(env, asked, start.from, attempts)
        invariant exclusions.trustsMemory || exclusions.UsableHolders(providers) > 0 ==>
                    attempts <= |asked| - start.from
        invariant exclusions.UsableHolders(providers) == 0 ==>
                    (demoted == {} && exclusions.trustsMemory) || Dangling(asked, start.from)
        decreases MAX_DESCRIPTOR_ATTEMPTS - attempts, exclusions.trustsMemory
      {
        if exclusions.UsableHolders(providers) == 0 {
          var changed := Forget(exclusions, providers, attempts, start, demoted, k, s);
          if changed {
            continue;
          }
        }
        if start.must {
          HonestLeft(start, exclusions, demoted, demoted, attempts, providers, k, s);
        }
        var round;
        ghost var before := asked;
        round, providers, info, p, demoted, k := Round(exclusions, providers, attempts, start, demoted, k, s);
        attempts := attempts + 1;
        match round {
          case Over(result) => return result, info, p;
          case Unanswered(e) =>
            if attempts >= MAX_DESCRIPTOR_ATTEMPTS {
              if start.must {
                HonestLeft(start, exclusions, demoted, demoted, attempts, providers, k, s);
              }
              UnmetExplained(before, asked, start.from, start.blamed, store.blamed, Sound(s), e);
              GivesUp(start, exclusions, demoted, attempts, providers, k, s, e, info);
              return Err(e), info, NOTHING;
            }
          case Demoted(e) =>
            FailedEither(asked, start.from, start.blamed, store.blamed, attempts - 1, exclusions.trustsMemory,
                         Sound(s), e);
            if attempts >= MAX_DESCRIPTOR_ATTEMPTS
               || (exclusions.UsableHolders(providers) == 0 && !exclusions.trustsMemory)
            {
              if start.must {
                HonestLeft(start, exclusions, demoted, demoted, attempts, providers, k, s);
              }
              GivesUp(start, exclusions, demoted, attempts, providers, k, s, e, info);
              return Err(e), info, NOTHING;
            }
        }
      }
    }

    static lemma UnmetExplained(before: seq<Asking>, now: seq<Asking>, from: nat, was: seq<Peer>, blamed: seq<Peer>,
                                sound: bool, e: DownloadError)
      requires Unmet(before, now, e) && from <= |before| && before <= now
      requires now == before ==> Dangling(now, from)
      ensures Explained(now, from, was, blamed, sound, e)
    {
      hide Added;
    }

    /** A failed pull accounts for the error, unless it leaves attempts that may ask nobody. */
    static lemma FailedEither(log: seq<Asking>, from: nat, was: seq<Peer>, blamed: seq<Peer>, attempt: nat,
                              honoured: bool, sound: bool, e: DownloadError)
      requires Failed(log, from, was, blamed, attempt, honoured, sound, e)
      ensures if honoured && attempt + 1 < MAX_DESCRIPTOR_ATTEMPTS then Dangling(log, from)
              else Explained(log, from, was, blamed, sound, e)
    {
      hide Added;
    }

    /** With no usable holder left, past verdicts are dropped, and with them whatever they kept from being asked. */
    method Forget(exclusions: DescriptorExclusions, providers: seq<Peer>, ghost attempts: nat, ghost start: Start,
                  ghost demoted: set<Peer>, ghost k: nat, ghost s: Scenario)
      returns (changed: bool)
      requires Fair(start, exclusions, demoted, demoted, attempts, providers, k, s)
      requires exclusions.UsableHolders(providers) == 0
      modifies exclusions`trustsMemory
      ensures Fair(start, exclusions, demoted, demoted, attempts, providers, k, s)
      ensures Hopeful(start, exclusions, s) && !exclusions.trustsMemory && changed == old(exclusions.trustsMemory)
      ensures demoted == {} && start.located != [] ==> exclusions.UsableHolders(providers) > 0
      ensures !changed ==> exclusions.UsableHolders(providers) == 0
    {
      hide *;
      FairParts(start, exclusions, demoted, demoted, attempts, providers, k, s);
      NoOneUsable(start, exclusions, demoted, providers);
      changed := exclusions.StopTrustingMemory();
      Forgotten(start, exclusions, demoted, providers, s);
      StillFair(start, exclusions, demoted, demoted, attempts, providers, k, s);
    }

    lemma NoOneUsable(start: Start, exclusions: DescriptorExclusions, demoted: set<Peer>, providers: seq<Peer>)
      requires exclusions.UsableHolders(providers) == 0 && exclusions.remembered == start.remembered
      requires forall p :: p in exclusions.demotedHere <==> p in demoted
      requires start.located <= providers && Spares(start, exclusions.trustsMemory, demoted, asked)
      ensures Spares(start, false, demoted, asked)
      ensures exclusions.trustsMemory ==> exclusions.remembered != []
      ensures !exclusions.trustsMemory ==> forall p :: p in providers ==> p in demoted
    {
      hide DescriptorExclusions.UsableHolders, LastResort, AnsweredBefore;
      forall p | p in start.located ensures p in start.remembered || p in demoted {
        assert p in providers;
      }
    }

    lemma Forgotten(start: Start, exclusions: DescriptorExclusions, demoted: set<Peer>, providers: seq<Peer>,
                    s: Scenario)
      requires !exclusions.trustsMemory && start.located <= providers
      requires forall p :: p in exclusions.demotedHere <==> p in demoted
      ensures Hopeful(start, exclusions, s)
      ensures exclusions.UsableHolders(providers) == 0 <==> forall p :: p in providers ==> p in demoted
      ensures demoted == {} && start.located != [] ==> exclusions.UsableHolders(providers) > 0
    {
      hide DescriptorExclusions.UsableHolders;
      if start.located != [] {
        assert providers[0] in providers;
      }
    }

    /** Pulls the module: one holder's descriptor at a time, at most `MAX_DESCRIPTOR_ATTEMPTS` of them. */
    method Download(ghost s: Scenario)
      returns (r: Result<nat, DownloadError>, ghost info: ModuleInfo, ghost p: Pulled)
      requires env.maxModuleSize <= U64_MAX
      modifies this, sink, store
      // the log: what was asked, and that the replies are real
      ensures old(asked) <= asked && Real(env, asked, |old(asked)|)
      // promotion: only of a blob that passed both gates under the last descriptor heard
      ensures p.promoted ==>
                Released(info, p, r) && |asked| > |old(asked)| && asked[|asked| - 1].reply == Answered(info)
      ensures !p.promoted ==> r.Err? && sink.finalized == old(sink.finalized)
      // blame: sound, and complete for descriptors that are unusable
      ensures BlamedFairly(env, old(store.blamed), store.blamed, s.genuine, asked, |old(asked)|)
      ensures AllCaught(asked, |old(asked)|, old(store.blamed), store.blamed)
      ensures Injective(env.sha) && env.AnchorIsFair(s.genuine) ==>
                forall k :: |old(store.blamed)| <= k < |store.blamed| ==> !env.NeverLies(store.blamed[k], s.genuine)
      // liveness
      ensures env.locate(old(tick)).Ok?
              && MustPromote(s, env.locate(old(tick)).value, old(tick) + 1, old(store.Remembered())) ==>
                && p.promoted && sink.finalized && sink.buf == s.genuine == p.blob
                && (store.Works() ==> r == Ok(|s.genuine|))
      // fetch once
      ensures sink.Works() && env.DescriptorsAgree(s.lens, s.hashes) ==>
                old(accepted) == [] && old(store.checkpoint) == None ==> CountsUp(accepted, |accepted|)
      ensures InOrder(old(store.OnDisk()), store.OnDisk())
      // demotion, and past verdicts: consulted while another holder can be asked, never longer
      ensures NeverReasked(asked, |old(asked)|) && Tried(env, asked, |old(asked)|, MAX_DESCRIPTOR_ATTEMPTS)
      ensures env.locate(old(tick)).Ok? ==>
                LastResort(asked, |old(asked)|, env.locate(old(tick)).value, old(store.Remembered()))
      // errors: what a failure is reported as
      ensures !p.promoted ==>
                if !env.downloadable then r == Err(NotDownloadable)
                else if env.locate(old(tick)).Err? then r.error == env.locate(old(tick)).error
                else if env.locate(old(tick)).value == [] then r == Err(NotFound)
                else Explained(asked, |old(asked)|, old(store.blamed), store.blamed, Sound(s), r.error)
    {
      hide *;
      info, p := ModuleInfo(0, "", [], []), NOTHING;
      Untouched(s, if env.locate(tick).Ok? then env.locate(tick).value else []);
      if !env.downloadable {
        return Err(NotDownloadable), info, p;
      }
      var located := env.locate(tick);
      tick := tick + 1;
      if located.Err? {
        return Err(located.error), info, p;
      }
      var providers := located.value;
      if providers == [] {
        return Err(NotFound), info, p;
      }
      var remembered := store.RememberedVerdicts();
      var exclusions := new DescriptorExclusions(remembered);
      ghost var start := Start(
        |asked|, tick, located.value, remembered, sink.finalized, store.blamed, store.OnDisk(),
        MustPromote(s, located.value, tick, remembered),
        sink.Works() && env.DescriptorsAgree(s.lens, s.hashes) && accepted == [] && store.checkpoint == None);
      LocatedFound(tick - 1);
      StartsFair(start, exclusions, s);
      r, info, p := Rounds(exclusions, providers, start, s);
      ConcludedParts(start, r, info, p, s);
      TruthfulUnblamed(start.blamed, store.blamed, s.genuine, start.from);
    }

    /** A call that ends before it asks anyone has nothing to answer for. */
    lemma Untouched(s: Scenario, located: seq<Peer>)
      ensures Real(env, asked, |asked|) && NeverReasked(asked, |asked|) && InOrder(store.OnDisk(), store.OnDisk())
      ensures Tried(env, asked, |asked|, MAX_DESCRIPTOR_ATTEMPTS)
      ensures AllCaught(asked, |asked|, store.blamed, store.blamed)
      ensures BlamedFairly(env, store.blamed, store.blamed, s.genuine, asked, |asked|)
      ensures LastResort(asked, |asked|, located, store.Remembered())
      ensures accepted == [] ==> CountsUp(accepted, |accepted|)
      ensures !NOTHING.promoted
      ensures MustPromote(s, located, tick + 1, store.Remembered()) ==> env.downloadable && s.honest in located
    {
      hide StateStore.Remembered, Env.Tells, Env.Supplied, Env.InReach, Env.OnlyLiarsLie, Sound, Env.OthersAnswer;
    }

    lemma LocatedFound(t: nat)
      requires env.locate(t).Ok?
      ensures env.AllFound(env.locate(t).value)
    {
    }

    lemma StartsFair(start: Start, exclusions: DescriptorExclusions, s: Scenario)
      requires start.from == |asked| && start.finalized == sink.finalized && start.blamed == store.blamed
      requires start.disk == store.OnDisk() && exclusions.demotedHere == [] && start.since == tick
      requires exclusions.remembered == start.remembered && exclusions.trustsMemory == (start.remembered != [])
      requires start.once ==> accepted == [] && store.checkpoint == None
      requires env.AllFound(start.located)
      requires start.must ==> MustPromote(s, start.located, start.since, start.remembered)
      ensures Fair(start, exclusions, {}, {}, 0, start.located, 0, s)
      ensures start.must ==>
                && Owed(s, start.located, start.since)
                && (Hopeful(start, exclusions, s) || exclusions.UsableHolders(start.located) == 0)
      ensures start.located != [] && exclusions.UsableHolders(start.located) == 0 ==> exclusions.trustsMemory
    {
      hide Injective, Owed, DescriptorExclusions.UsableHolders, Env.AllFound;
      assert Missed({}, tick, s);
      if start.located != [] {
        assert start.located[0] in start.located;
      }
    }

    lemma ConcludedParts(start: Start, r: Result<nat, DownloadError>, info: ModuleInfo, p: Pulled, s: Scenario)
      requires Concluded(start, r, info, p, s) && (start.must ==> Owed(s, start.located, start.since))
      ensures start.from <= |asked| && Real(env, asked, start.from) && NeverReasked(asked, start.from)
      ensures LastResort(asked, start.from, start.located, start.remembered)
      ensures Tried(env, asked, start.from, MAX_DESCRIPTOR_ATTEMPTS)
      ensures AllCaught(asked, start.from, start.blamed, store.blamed)
      ensures BlamedFairly(env, start.blamed, store.blamed, s.genuine, asked, start.from)
      ensures InOrder(start.disk, store.OnDisk()) && (start.once ==> CountsUp(accepted, |accepted|))
      ensures p.promoted ==>
                Released(info, p, r) && start.from < |asked| && asked[|asked| - 1].reply == Answered(info)
      ensures !p.promoted ==>
                && r.Err? && sink.finalized == start.finalized
                && Explained(asked, start.from, start.blamed, store.blamed, Sound(s), r.error)
      ensures start.must ==>
                && p.promoted && sink.finalized && sink.buf == s.genuine == p.blob
                && (store.Works() ==> r == Ok(|s.genuine|))
    {
      hide Gated, Real, NeverReasked, BlamedFairly, InOrder, CountsUp, Injective, Env.AnchorWorks, LastResort,
           Tried, Explained, AllCaught, Env.Tells, Env.Supplied, Env.InReach, Env.OnlyLiarsLie;
      if start.must {
        assert sink.Works() && sink.buf == p.blob;
      }
    }

    lemma TruthfulUnblamed(was: seq<Peer>, now: seq<Peer>, genuine: Bytes, from: nat)
      requires Real(env, asked, from) && BlamedFairly(env, was, now, genuine, asked, from)
      ensures was <= now
      ensures Injective(env.sha) && env.AnchorIsFair(genuine) ==>
                forall k :: |was| <= k < |now| ==> !env.NeverLies(now[k], genuine)
    {
      hide Injective, Env.AnchorIsFair, Lied;
      if Injective(env.sha) && env.AnchorIsFair(genuine) {
        forall k | |was| <= k < |now| ensures !env.NeverLies(now[k], genuine) {
          assert now[|was|..][k - |was|] == now[k];
          if env.NeverLies(now[k], genuine) {
            TruthfulNeverBlamed(env, was, now, genuine, asked, from, now[k]);
          }
        }
      }
    }

    lemma OneMoreLiar(demoted: set<Peer>, attempts: nat, now: nat, later: nat, last: Asking, info: ModuleInfo,
                      start: Start, s: Scenario)
      requires Spent(demoted, attempts, now, s) && now <= later && last.peer !in demoted
      requires Owed(s, start.located, start.since)
      requires env.moduleInfo(last.at, last.peer) == last.reply == Answered(info)
      requires !Acceptable(env.sha, env.maxModuleSize, info, s.genuine)
      ensures Spent(demoted + {last.peer}, attempts + 1, later, s)
    {
      hide Acceptable, Env.Supplied, Env.InReach, Sound, Env.FailuresRecoverable;
      var missed :| Missed(missed, now, s) && |demoted| + |missed| == attempts;
      assert !env.AnswersTruthfully(last.at, last.peer, s.genuine);
      assert Missed(missed, later, s);
    }

    static lemma {:induction false} Subset<T>(a: set<T>, b: set<T>)
      requires a <= b
      ensures |a| <= |b|
    {
      if a != {} {
        var x :| x in a;
        Subset(a - {x}, b - {x});
      }
    }
  }

  /** A pull's result as `download` returns it. */
  function Plain(r: Result<nat, PullFailure>): (plain: Result<nat, DownloadError>)
    ensures plain.Ok? <==> r.Ok?
    ensures r.Err? ==> plain.error == r.error.error
  {
    if r.Ok? then Ok(r.value) else Err(r.error.error)
  }
}
