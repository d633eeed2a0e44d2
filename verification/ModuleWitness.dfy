/** Runs that show what the module puller's guarantees assume can be met, and that a failed run may have promoted. */
module ModuleWitness {
  import opened Basics
  import opened ModulePlan
  import opened ModuleEnv
  import opened DescriptorLog
  import opened Sinks
  import opened Progress
  import opened ModulePuller

  const HONEST: Peer := "honest"
  const LIAR: Peer := "liar"
  const SILENT: Peer := "silent"

  /** A collision-free stand-in for the hash. */
  function Spell(b: Bytes): string { seq(|b|, i requires 0 <= i < |b| => b[i] as char) }

  lemma SpellInjective()
    ensures Injective(Spell)
  {
    forall a: Bytes, b: Bytes | Spell(a) == Spell(b) ensures a == b {
      assert |a| == |Spell(a)| == |b|;
      assert forall i :: 0 <= i < |a| ==> a[i] == Spell(a)[i] as int && b[i] == Spell(b)[i] as int;
    }
  }

  function Truth(genuine: Bytes): ModuleInfo { ModuleInfo(|genuine|, Spell(genuine), [|genuine|], [Spell(genuine)]) }

  /** A liar is located before an honest holder; the anchor reads the whole module and compares. */
  function World(genuine: Bytes): Env {
    Env(Spell, true, |genuine|, _ => Ok([LIAR, HONEST]),
        (_, p) => if p == LIAR then Answered(ModuleInfo(0, "", [], [])) else Answered(Truth(genuine)),
        (_: nat, p: Peer, o: nat, l: nat) =>
          if p == HONEST && o + l <= |genuine| then Answered(genuine[o..o + l]) else TimedOut,
        _ => true,
        (len: nat, seen: seq<AnchorRead>) => if seen == [] then Some((0, len)) else None,
        1,
        (len: nat, seen: seq<AnchorRead>) =>
          if |seen| != 1 || seen[0].data.None? then Unavailable
          else if seen[0].data.value == genuine then Anchored else NotAnchored)
  }

  lemma TruthIsTruthful(genuine: Bytes)
    requires genuine != [] && |genuine| <= U64_MAX
    ensures Acceptable(Spell, |genuine|, Truth(genuine), genuine)
  {
    assert Offset([|genuine|], 1) == Offset([|genuine|], 0) + |genuine|;
    assert genuine[0..|genuine|] == genuine;
    assert ChunkMatches(Spell, [|genuine|], [Spell(genuine)], genuine, 0);
  }

  lemma AnchorDecides(env: Env, genuine: Bytes)
    requires env.anchorAsk == World(genuine).anchorAsk && env.anchorLimit == World(genuine).anchorLimit
    requires env.anchorVerdict == World(genuine).anchorVerdict
    ensures env.AnchorWorks(genuine) && env.AnchorIsFair(genuine)
  {
    forall len: nat, seen: seq<AnchorRead> | env.Asked(len, seen) && env.anchorVerdict(len, seen) == NotAnchored
      ensures len != |genuine| || exists i :: 0 <= i < |seen| && !Env.Agrees(seen[i], genuine)
    {
      assert seen[..0] == [];
      assert genuine[0..|genuine|] == genuine;
      assert len == |genuine| ==> !Env.Agrees(seen[0], genuine);
    }
    forall blob: Bytes, seen: seq<AnchorRead> | Env.AllGiven(seen, blob) && env.Asked(|blob|, seen)
      ensures var ask := env.anchorAsk(|blob|, seen);
              && (ask.Some? ==> ask.value.0 + ask.value.1 <= |blob|)
              && (env.Finished(|blob|, seen) ==>
                    env.anchorVerdict(|blob|, seen) == if blob == genuine then Anchored else NotAnchored)
    {
      if seen != [] {
        assert seen[..0] == [];
        assert seen[0].offset == 0 && seen[0].len == |blob|;
        assert seen[0].data.value == blob;
      }
    }
  }

  /** Everything the liveness guarantee assumes holds in this world, for any non-empty module. */
  lemma WorldMeetsAssumptions(genuine: Bytes, downloader: ModuleDownloader)
    requires genuine != [] && |genuine| <= U64_MAX && downloader.env == World(genuine)
    requires downloader.sink.Works() && downloader.store.Keeps()
    ensures downloader.MustPromote(Scenario(genuine, HONEST, {}, {HONEST}, {LIAR}, [], []), [LIAR, HONEST], 1, [])
    ensures Injective(Spell) && World(genuine).AnchorIsFair(genuine) && World(genuine).NeverLies(HONEST, genuine)
  {
    SpellInjective();
    TruthIsTruthful(genuine);
    AnchorDecides(World(genuine), genuine);
    forall o: nat, l: nat | o + l <= |genuine| ensures World(genuine).Stocked({HONEST}, o, l, genuine) {
      assert World(genuine).Supplies(HONEST, o, l, genuine);
    }
  }

  /** In that world, with working storage, any non-empty module is pulled, past the liar and without blaming the
      honest holder. */
  method PullsPastLiar(genuine: Bytes) returns (sink: Sink, store: StateStore, r: Result<nat, DownloadError>)
    requires genuine != [] && |genuine| <= U64_MAX
    ensures fresh(sink) && sink.finalized && sink.buf == genuine && r == Ok(|genuine|)
    ensures fresh(store) && HONEST !in store.blamed
  {
    sink := new Sink(true, true, _ => false, (_, staged) => staged, []);
    store := new StateStore((_, _) => false, _ => 0, None, []);
    var downloader := new ModuleDownloader(World(genuine), sink, store);
    WorldMeetsAssumptions(genuine, downloader);
    ghost var info, p;
    r, info, p := downloader.Download(Scenario(genuine, HONEST, {}, {HONEST}, {LIAR}, [], []));
  }

  /** A failing pull can leave a promoted artifact: the sink is finalized, then dropping the checkpoint fails. */
  method FinalizedDespiteError(genuine: Bytes) returns (sink: Sink, r: Result<nat, DownloadError>)
    requires genuine != [] && |genuine| <= U64_MAX
    ensures fresh(sink) && sink.finalized && sink.buf == genuine && r == Err(State)
  {
    sink := new Sink(true, true, _ => false, (_, staged) => staged, []);
    var store := new StateStore((_, o) => o == Clearing, _ => 0, None, []);
    var downloader := new ModuleDownloader(World(genuine), sink, store);
    WorldMeetsAssumptions(genuine, downloader);
    assert store.Remembered() == [] && World(genuine).maxModuleSize <= U64_MAX;
    assert World(genuine).locate(0) == Ok([LIAR, HONEST]) && forall t: nat :: store.faults(t, Clearing);
    hide *;
    ghost var info, p;
    r, info, p := downloader.Download(Scenario(genuine, HONEST, {}, {HONEST}, {LIAR}, [], []));
    NeverCleared(downloader, info, p, r);
  }

  lemma NeverCleared(downloader: ModuleDownloader, info: ModuleInfo, p: Pulled, r: Result<nat, DownloadError>)
    requires downloader.Released(info, p, r) && forall t: nat :: downloader.store.faults(t, Clearing)
    ensures r == Err(State)
  {
    hide ModuleDownloader.Gated;
  }

  const TELLER: Peer := "teller"
  const SERVER: Peer := "server"

  /** The only holder located first describes the module, but misses its first call and serves no bytes; relocating
      finds one that serves bytes and describes nothing. */
  function SplitWorld(genuine: Bytes): Env {
    World(genuine).(
      locate := (t: nat) => Ok(if t == 0 then [TELLER] else [TELLER, SERVER]),
      moduleInfo := (t: nat, p: Peer) => if p == TELLER && t != 1 then Answered(Truth(genuine)) else TimedOut,
      moduleRange := (_: nat, p: Peer, o: nat, l: nat) =>
        if p == SERVER && o + l <= |genuine| then Answered(genuine[o..o + l]) else Refused(Transport))
  }

  lemma SplitWorldMeetsAssumptions(genuine: Bytes, downloader: ModuleDownloader)
    requires genuine != [] && |genuine| <= U64_MAX && downloader.env == SplitWorld(genuine)
    requires downloader.sink.Works() && downloader.store.Keeps()
    ensures downloader.MustPromote(Scenario(genuine, TELLER, {1}, {SERVER}, {}, [], []), [TELLER], 1, [TELLER])
  {
    var env := SplitWorld(genuine);
    SpellInjective();
    TruthIsTruthful(genuine);
    AnchorDecides(env, genuine);
    forall o: nat, l: nat | o + l <= |genuine| ensures env.Stocked({SERVER}, o, l, genuine) {
      assert env.Supplies(SERVER, o, l, genuine);
    }
    assert env.Findable(SERVER, 1);
  }

  lemma OneRemembered(peer: Peer)
    ensures LivePeers([Verdict(peer, 0)], 0) == [peer]
  {
    assert LivePeers([], 0) == [];
    assert [Verdict(peer, 0)][1..] == [];
  }

  /** In that world the module is pulled even if the only holder that describes it carries a past verdict: the verdict
      is dropped, the missed call made again, and the bytes come from a holder located later. */
  method PullsFromRemembered(genuine: Bytes) returns (sink: Sink, r: Result<nat, DownloadError>)
    requires genuine != [] && |genuine| <= U64_MAX
    ensures fresh(sink) && sink.finalized && sink.buf == genuine && r == Ok(|genuine|)
  {
    sink := new Sink(true, true, _ => false, (_, staged) => staged, []);
    var store := new StateStore((_, _) => false, _ => 0, None, [Verdict(TELLER, 0)]);
    OneRemembered(TELLER);
    var downloader := new ModuleDownloader(SplitWorld(genuine), sink, store);
    SplitWorldMeetsAssumptions(genuine, downloader);
    ghost var info, p;
    r, info, p := downloader.Download(Scenario(genuine, TELLER, {1}, {SERVER}, {}, [], []));
  }

  /** A holder that never answers is located before the honest one. */
  function SilentWorld(genuine: Bytes): Env {
    World(genuine).(
      locate := (_: nat) => Ok([SILENT, HONEST]),
      moduleInfo := (_: nat, p: Peer) => if p == HONEST then Answered(Truth(genuine)) else TimedOut)
  }

  /** There, if the honest one carries a past verdict, no request is answered. */
  lemma NoOneAnswers(genuine: Bytes, log: seq<Asking>)
    requires Real(SilentWorld(genuine), log, 0) && LastResort(log, 0, [SILENT, HONEST], [HONEST])
    ensures forall k :: 0 <= k < |log| ==> !log[k].reply.Answered?
  {
    SilenceKeepsMemory(SilentWorld(genuine), log, 0, [SILENT, HONEST], [HONEST], SILENT);
    hide LastResort, Truth;
  }

  /** A past verdict can still deny a pull: while a holder without one is located and stays silent, the reliable holder
      that carries one is never asked. */
  method DeniedByMemory(genuine: Bytes) returns (sink: Sink, r: Result<nat, DownloadError>)
    requires |genuine| <= U64_MAX
    ensures fresh(sink) && !sink.finalized && r.Err?
  {
    sink := new Sink(true, true, _ => false, (_, staged) => staged, []);
    var store := new StateStore((_, _) => false, _ => 0, None, [Verdict(HONEST, 0)]);
    OneRemembered(HONEST);
    assert store.Remembered() == [HONEST];
    assert SilentWorld(genuine).maxModuleSize <= U64_MAX && SilentWorld(genuine).locate(0) == Ok([SILENT, HONEST]);
    hide *;
    var downloader := new ModuleDownloader(SilentWorld(genuine), sink, store);
    ghost var info, p;
    r, info, p := downloader.Download(Scenario(genuine, HONEST, {}, {HONEST}, {}, [], []));
    NoOneAnswers(genuine, downloader.asked);
  }

  /** A descriptor no plan can be made of. */
  const LIE := ModuleInfo(0, "?", [], [])

  /** The only holder there is lies. */
  function LyingWorld(genuine: Bytes): Env {
    World(genuine).(
      locate := (_: nat) => Ok([LIAR]),
      moduleInfo := (_: nat, p: Peer) => if p == LIAR then Answered(LIE) else TimedOut)
  }

  /** A holder that answers every request is never asked twice. */
  lemma AskedOnce(log: seq<Asking>, peer: Peer)
    requires forall k :: 0 <= k < |log| ==> log[k].peer == peer && log[k].reply.Answered?
    ensures |log| > 1 ==> !NeverReasked(log, 0)
  {
    if |log| > 1 {
      assert log[0].reply.Answered? && log[1].peer == log[0].peer;
    }
  }

  /** There one request is made, in the first attempt, before any past verdict is dropped, and answered with the lie. */
  lemma OneLie(genuine: Bytes, log: seq<Asking>, remembered: seq<Peer>)
    requires log != [] && LIAR !in remembered && Real(LyingWorld(genuine), log, 0) && NeverReasked(log, 0)
    requires Tried(LyingWorld(genuine), log, 0, MAX_DESCRIPTOR_ATTEMPTS) && LastResort(log, 0, [LIAR], remembered)
    ensures |log| == 1 && log[0].peer == LIAR && log[0].reply == Answered(LIE)
    ensures log[0].attempt == 0 && (log[0].honoured <==> remembered != [])
  {
    forall k | 0 <= k < |log| ensures log[k].peer == LIAR && log[k].reply == Answered(LIE) {
      assert LyingWorld(genuine).Found(log[k].peer);
    }
    AskedOnce(log, LIAR);
    if remembered != [] {
      assert LIAR in [LIAR] && !AnsweredBefore(log, 0, 0, LIAR);
    }
  }

  lemma LyingWorldSound(genuine: Bytes, downloader: ModuleDownloader, s: Scenario)
    requires downloader.env == LyingWorld(genuine) && s.genuine == genuine
    requires downloader.sink.Works() && downloader.store.Keeps()
    ensures downloader.Sound(s) && downloader.env.downloadable && downloader.env.locate(0) == Ok([LIAR])
    ensures !WellFormed(LIE, downloader.env.maxModuleSize) && downloader.env.maxModuleSize == |genuine|
  {
    SpellInjective();
    AnchorDecides(LyingWorld(genuine), genuine);
    hide Injective, Env.AnchorWorks, Env.AnchorIsFair;
  }

  lemma LieUnreleased(downloader: ModuleDownloader, genuine: Bytes, remembered: seq<Peer>, info: ModuleInfo, p: Pulled,
                      r: Result<nat, DownloadError>)
    requires downloader.env == LyingWorld(genuine) && LIAR !in remembered
    requires var log := downloader.asked;
             && log != [] && log[|log| - 1].reply == Answered(info)
             && Real(LyingWorld(genuine), log, 0) && NeverReasked(log, 0)
             && Tried(LyingWorld(genuine), log, 0, MAX_DESCRIPTOR_ATTEMPTS) && LastResort(log, 0, [LIAR], remembered)
    ensures !downloader.Released(info, p, r)
  {
    OneLie(genuine, downloader.asked, remembered);
    assert Spell([]) == "" && (|p.blob| == 0 ==> p.blob == []);
  }

  /** How that ends. */
  lemma LieReported(downloader: ModuleDownloader, genuine: Bytes, remembered: seq<Peer>, s: Scenario, e: DownloadError)
    requires downloader.env == LyingWorld(genuine) && LIAR !in remembered
    requires var log := downloader.asked;
             && Real(LyingWorld(genuine), log, 0) && NeverReasked(log, 0)
             && Tried(LyingWorld(genuine), log, 0, MAX_DESCRIPTOR_ATTEMPTS) && LastResort(log, 0, [LIAR], remembered)
             && ModuleDownloader.Explained(log, 0, [], downloader.store.blamed, downloader.Sound(s), e)
             && downloader.AllCaught(log, 0, [], downloader.store.blamed)
    requires downloader.Sound(s) && !WellFormed(LIE, downloader.env.maxModuleSize)
    ensures LIAR in downloader.store.blamed
    ensures e == if remembered == [] then DownloadError.Verify else NotFound
  {
    OneLie(genuine, downloader.asked, remembered);
    hide ModuleDownloader.Sound, WellFormed, LyingWorld;
  }

  /** What the only holder is caught lying about is reported as its failure; but if another holder, not even located,
      carries a past verdict, the same lie is reported as nobody having been found. */
  method ReportsLie(genuine: Bytes, remembers: bool)
    returns (sink: Sink, store: StateStore, r: Result<nat, DownloadError>)
    requires |genuine| <= U64_MAX
    ensures fresh(sink) && !sink.finalized && fresh(store) && LIAR in store.blamed
    ensures r == Err(if remembers then NotFound else DownloadError.Verify)
  {
    sink := new Sink(true, true, _ => false, (_, staged) => staged, []);
    store := new StateStore((_, _) => false, _ => 0, None, if remembers then [Verdict(SILENT, 0)] else []);
    OneRemembered(SILENT);
    ghost var remembered := if remembers then [SILENT] else [];
    assert store.Remembered() == remembered;
    var downloader := new ModuleDownloader(LyingWorld(genuine), sink, store);
    ghost var s := Scenario(genuine, LIAR, {}, {}, {LIAR}, [], []);
    LyingWorldSound(genuine, downloader, s);
    hide *;
    ghost var info, p;
    r, info, p := downloader.Download(s);
    if p.promoted {
      LieUnreleased(downloader, genuine, remembered, info, p, r);
    } else {
      LieReported(downloader, genuine, remembered, s, r.error);
    }
  }
}
