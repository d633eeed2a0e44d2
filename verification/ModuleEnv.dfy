/** Everything outside the module puller: holders, locator and anchor, as arbitrary functions of the call number. */
module ModuleEnv {
  import opened Basics
  import opened ModulePlan

  datatype Reply<+T> = Answered(value: T) | Refused(error: DownloadError) | TimedOut

  /** One window the anchor asked for, and what it was given. */
  datatype AnchorRead = AnchorRead(offset: nat, len: nat, data: Option<Bytes>)

  datatype ModuleAnchor = Anchored | NotAnchored | Unavailable

  /** The anchor verifier reads adaptively, at most `anchorLimit` windows, and then gives its verdict; both the
      next window and the verdict may depend on the module's length and on everything read so far. */
  datatype Env = Env(
    sha: HashFunction,
    downloadable: bool,
    maxModuleSize: nat,
    locate: nat -> Result<seq<Peer>, DownloadError>,
    moduleInfo: (nat, Peer) -> Reply<ModuleInfo>,
    moduleRange: (nat, Peer, nat, nat) -> Reply<Bytes>,
    canAllocate: nat -> bool,
    anchorAsk: (nat, seq<AnchorRead>) -> Option<(nat, nat)>,
    anchorLimit: nat,
    anchorVerdict: (nat, seq<AnchorRead>) -> ModuleAnchor)
  {
    /** The read failed, or returned `blob`'s own bytes. */
    static ghost predicate Agrees(r: AnchorRead, blob: Bytes) {
      r.data.Some? ==>
        |r.data.value| == r.len
        && (r.len > 0 ==> r.offset + r.len <= |blob| && r.data.value == blob[r.offset..r.offset + r.len])
    }

    /** `seen` is a transcript: each window is the one the anchor asked for next, and there are not too many. */
    ghost predicate Asked(len: nat, seen: seq<AnchorRead>) {
      && |seen| <= anchorLimit
      && forall i :: 0 <= i < |seen| ==> anchorAsk(len, seen[..i]) == Some((seen[i].offset, seen[i].len))
    }

    /** The anchor has no more windows to ask for. */
    predicate Finished(len: nat, seen: seq<AnchorRead>) { anchorAsk(len, seen).None? || |seen| >= anchorLimit }

    /** Having asked for all it wants, the anchor says "not anchored" only of a blob it saw differ from the genuine
        module. */
    ghost predicate AnchorIsFair(genuine: Bytes) {
      forall len: nat, seen: seq<AnchorRead> {:trigger Asked(len, seen)} ::
        Asked(len, seen) && Finished(len, seen) && anchorVerdict(len, seen) == NotAnchored ==>
          len != |genuine| || exists i :: 0 <= i < |seen| && !Agrees(seen[i], genuine)
    }

    /** Given every window it asks for of a blob, the anchor decides correctly and asks for nothing outside it. */
    ghost predicate AnchorWorks(genuine: Bytes) {
      forall blob: Bytes, seen: seq<AnchorRead> {:trigger AllGiven(seen, blob)} ::
        AllGiven(seen, blob) && Asked(|blob|, seen) ==>
          var ask := anchorAsk(|blob|, seen);
          && (ask.Some? ==> ask.value.0 + ask.value.1 <= |blob|)
          && (Finished(|blob|, seen) ==>
                anchorVerdict(|blob|, seen) == if blob == genuine then Anchored else NotAnchored)
    }

    lemma AskedMore(len: nat, seen: seq<AnchorRead>, read: AnchorRead)
      requires Asked(len, seen) && !Finished(len, seen) && anchorAsk(len, seen) == Some((read.offset, read.len))
      ensures Asked(len, seen + [read])
    {
      var more := seen + [read];
      forall i | 0 <= i < |more| ensures anchorAsk(len, more[..i]) == Some((more[i].offset, more[i].len)) {
        assert more[..i] == seen[..i];
        assert seen[..|seen|] == seen;
      }
    }

    static ghost predicate AllGiven(seen: seq<AnchorRead>, blob: Bytes) {
      forall i :: 0 <= i < |seen| ==> seen[i].data.Some? && Agrees(seen[i], blob)
    }

    /** But for the calls in `misses`, at which it may give none, `peer` gives a truthful descriptor of `genuine`. */
    ghost predicate Tells(peer: Peer, misses: set<nat>, genuine: Bytes) {
      forall t: nat :: AnswersTruthfully(t, peer, genuine) || (t in misses && !moduleInfo(t, peer).Answered?)
    }

    /** Everyone else always answers with some descriptor. */
    ghost predicate OthersAnswer(known: seq<Peer>) {
      forall t: nat, p: Peer :: p !in known ==> moduleInfo(t, p).Answered?
    }

    /** There is a call among these at which `peer` does not answer. */
    ghost predicate Silent(peer: Peer, from: nat, to: nat) {
      exists t: nat :: from <= t < to && !moduleInfo(t, peer).Answered?
    }

    ghost predicate AnswersTruthfully(t: nat, peer: Peer, genuine: Bytes) {
      moduleInfo(t, peer).Answered? && Acceptable(sha, maxModuleSize, moduleInfo(t, peer).value, genuine)
    }

    /** Whatever descriptor `peer` answers with is a truthful one. */
    ghost predicate NeverLies(peer: Peer, genuine: Bytes) {
      forall t: nat :: moduleInfo(t, peer).Answered? ==> AnswersTruthfully(t, peer, genuine)
    }

    /** The answer holds the window; bytes past it are clipped by the puller. */
    ghost predicate Serves(t: nat, peer: Peer, o: nat, l: nat, genuine: Bytes) {
      o + l <= |genuine| ==>
        && moduleRange(t, peer, o, l).Answered? && l <= |moduleRange(t, peer, o, l).value|
        && moduleRange(t, peer, o, l).value[..l] == genuine[o..o + l]
    }

    /** `peer` serves the window whenever it is asked. */
    ghost predicate Supplies(peer: Peer, o: nat, l: nat, genuine: Bytes) {
      forall t: nat :: Serves(t, peer, o, l, genuine)
    }

    ghost predicate Stocked(servers: set<Peer>, o: nat, l: nat, genuine: Bytes) {
      exists p :: p in servers && Supplies(p, o, l, genuine)
    }

    /** Each window of `genuine` has one among `servers` who serves it. */
    ghost predicate Supplied(servers: set<Peer>, genuine: Bytes) {
      forall o: nat, l: nat :: o + l <= |genuine| ==> Stocked(servers, o, l, genuine)
    }

    ghost predicate Found(peer: Peer) { exists t: nat :: locate(t).Ok? && peer in locate(t).value }

    /** Everyone known has been located. */
    ghost predicate AllFound(known: seq<Peer>) { forall p :: p in known ==> Found(p) }

    /** Whoever relocates from call `since` on finds `peer`. */
    ghost predicate Findable(peer: Peer, since: nat) {
      forall t: nat :: since <= t && locate(t).Ok? ==> peer in locate(t).value
    }

    /** Each of `servers` is known, or found by relocating. */
    ghost predicate InReach(servers: set<Peer>, known: seq<Peer>, since: nat) {
      forall p :: p in servers ==> p in known || Findable(p, since)
    }

    /** All that one call from `since` on located is known. */
    ghost predicate Relocated(known: seq<Peer>, since: nat) {
      exists t: nat :: since <= t && locate(t).Ok? && forall p :: p in locate(t).value ==> p in known
    }

    lemma RelocatedSince(known: seq<Peer>, since: nat, now: nat)
      requires since <= now
      ensures Relocated(known, now) ==> Relocated(known, since)
    {
    }

    lemma Reached(servers: set<Peer>, known: seq<Peer>, more: seq<Peer>, since: nat, now: nat)
      requires InReach(servers, known, since) && since <= now && known <= more && Relocated(more, now)
      ensures forall p :: p in servers ==> p in more
    {
      var t: nat :| now <= t && locate(t).Ok? && forall p :: p in locate(t).value ==> p in more;
      forall p | p in servers ensures p in more {
        if p !in known {
          assert Findable(p, since);
        }
      }
    }

    /** A wrong descriptor only ever comes from `liars`. */
    ghost predicate OnlyLiarsLie(liars: set<Peer>, genuine: Bytes) {
      forall t: nat, p: Peer :: moduleInfo(t, p).Answered? && p !in liars ==> AnswersTruthfully(t, p, genuine)
    }

    /** No descriptor request fails in a way that ends the round, relocating works, and memory suffices. */
    ghost predicate FailuresRecoverable() {
      && (forall t: nat, p: Peer :: moduleInfo(t, p).Refused? ==> moduleInfo(t, p).error.IsRecoverable())
      && (forall t: nat :: locate(t).Ok?)
      && (forall t: nat :: canAllocate(t))
    }

    /** All answered descriptors agree on the chunking and the chunk hashes. */
    ghost predicate DescriptorsAgree(lens: seq<nat>, hashes: seq<string>) {
      forall t: nat, p: Peer ::
        moduleInfo(t, p).Answered? ==>
          moduleInfo(t, p).value.chunkLens == lens && moduleInfo(t, p).value.chunkHashes == hashes
    }
  }

  /** `merge_new_providers`: appends the holders not already known, each once. */
  function Merge(known: seq<Peer>, found: seq<Peer>): (r: seq<Peer>)
    ensures known <= r
    ensures forall p :: p in r <==> p in known || p in found
    ensures forall k :: |known| <= k < |r| ==> r[k] in found && r[k] !in r[..k]
    decreases |found|
  {
    if found == [] then known
    else
      assert found == [found[0]] + found[1..];
      Merge(if found[0] in known then known else known + [found[0]], found[1..])
  }
}
