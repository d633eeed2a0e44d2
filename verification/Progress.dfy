/** `src/progress.rs`: the resume checkpoint and the bounded, decaying list of bad-descriptor verdicts. */
module Progress {
  import opened Basics

  const BAD_DESCRIPTOR_TTL: nat := 24 * 60 * 60
  const MAX_BAD_DESCRIPTOR_PEERS: nat := 32

  datatype DownloadState = DownloadState(
    totalLength: nat, chunkLens: seq<nat>, root: Option<string>, inclusionProof: Option<string>, doneRanges: set<nat>)

  const NO_STATE := DownloadState(0, [], None, None, {})

  datatype Verdict = Verdict(peer: Peer, at: nat)

  predicate IsHexDigit(c: char) { '0' <= c <= '9' || 'a' <= c <= 'f' || 'A' <= c <= 'F' }

  predicate IsHexPeerId(peer: Peer) { |peer| == 64 && forall k :: 0 <= k < 64 ==> IsHexDigit(peer[k]) }

  /** Aged past the TTL; a verdict stamped in the future counts as current. */
  predicate IsExpired(v: Verdict, now: nat) { now > v.at + BAD_DESCRIPTOR_TTL }

  /** The verdicts that survive recording `peer` at `now`. */
  function Retained(verdicts: seq<Verdict>, peer: Peer, now: nat): (r: seq<Verdict>)
    ensures |r| <= |verdicts|
  {
    if verdicts == [] then []
    else
      var (init, v) := (verdicts[..|verdicts| - 1], verdicts[|verdicts| - 1]);
      if IsExpired(v, now) || v.peer == peer then Retained(init, peer, now) else Retained(init, peer, now) + [v]
  }

  function Newest(verdicts: seq<Verdict>): seq<Verdict> {
    if |verdicts| <= MAX_BAD_DESCRIPTOR_PEERS then verdicts else verdicts[|verdicts| - MAX_BAD_DESCRIPTOR_PEERS..]
  }

  function Recorded(verdicts: seq<Verdict>, peer: Peer, now: nat): seq<Verdict> {
    if !IsHexPeerId(peer) then verdicts else Newest(Retained(verdicts, peer, now) + [Verdict(peer, now)])
  }

  function LivePeers(verdicts: seq<Verdict>, now: nat): (peers: seq<Peer>)
    ensures forall p :: p in peers <==> exists v :: v in verdicts && v.peer == p && !IsExpired(v, now)
  {
    if verdicts == [] then []
    else
      var (v, rest) := (verdicts[0], verdicts[1..]);
      assert verdicts == [v] + rest;
      if IsExpired(v, now) then LivePeers(rest, now) else [v.peer] + LivePeers(rest, now)
  }

  /** What is on disk, and everything that ever was: the checkpoint, and each state saved so far. */
  datatype Disk = Disk(checkpoint: Option<DownloadState>, saves: seq<DownloadState>)

  datatype StoreOp = Loading | Saving | Clearing | Recording | Remembering

  /** One target's checkpoint and verdicts. Operation number `t`, of kind `o`, fails if `faults(t, o)`; `clock(t)` is
      the time it sees. */
  class StateStore {
    const faults: (nat, StoreOp) -> bool
    const clock: nat -> nat
    var checkpoint: Option<DownloadState>
    var verdicts: seq<Verdict>
    var ops: nat
    ghost var saves: seq<DownloadState>
    ghost var blamed: seq<Peer>

    constructor (faults: (nat, StoreOp) -> bool, clock: nat -> nat, checkpoint: Option<DownloadState>,
                 verdicts: seq<Verdict>)
      ensures this.faults == faults && this.clock == clock
      ensures this.checkpoint == checkpoint && this.verdicts == verdicts && blamed == [] && saves == []
    {
      this.faults, this.clock, this.checkpoint, this.verdicts := faults, clock, checkpoint, verdicts;
      ops, blamed, saves := 0, [], [];
    }

    ghost function OnDisk(): Disk
      reads this`checkpoint, this`saves
    {
      Disk(checkpoint, saves)
    }

    ghost predicate Works() {
      forall t: nat, o: StoreOp :: !faults(t, o)
    }

    /** Checkpoints can be loaded and saved, whatever else fails. */
    ghost predicate Keeps() {
      forall t: nat :: !faults(t, Loading) && !faults(t, Saving)
    }

    method Load() returns (r: Result<Option<DownloadState>, DownloadError>)
      modifies this`ops
      ensures ops == old(ops) + 1
      ensures r == if faults(old(ops), Loading) then Err(State) else Ok(checkpoint)
    {
      r := if faults(ops, Loading) then Err(State) else Ok(checkpoint);
      ops := ops + 1;
    }

    /** `saves` logs every state saved. */
    method Save(state: DownloadState) returns (ok: bool)
      modifies this`ops, this`checkpoint, this`saves
      ensures ops == old(ops) + 1
      ensures ok <==> !faults(old(ops), Saving)
      ensures checkpoint == if ok then Some(state) else old(checkpoint)
      ensures saves == old(saves) + if ok then [state] else []
    {
      ok := !faults(ops, Saving);
      if ok {
        checkpoint, saves := Some(state), saves + [state];
      }
      ops := ops + 1;
    }

    method Clear() returns (ok: bool)
      modifies this`ops, this`checkpoint
      ensures ops == old(ops) + 1
      ensures ok <==> !faults(old(ops), Clearing)
      ensures checkpoint == if ok then None else old(checkpoint)
    {
      ok := !faults(ops, Clearing);
      if ok {
        checkpoint := None;
      }
      ops := ops + 1;
    }

    /** `blamed` logs every peer this was called for, in order, whether or not the verdict is kept. */
    method RecordBadDescriptor(peer: Peer)
      modifies this`ops, this`verdicts, this`blamed
      ensures ops == old(ops) + 1
      ensures blamed == old(blamed) + [peer]
      ensures verdicts == if faults(old(ops), Recording) then old(verdicts)
                          else Recorded(old(verdicts), peer, clock(old(ops)))
    {
      if !faults(ops, Recording) {
        RecordVerdict(peer, clock(ops));
      }
      blamed := blamed + [peer];
      ops := ops + 1;
    }

    /** `record_verdict`: drop expired and duplicate verdicts, append, then evict the oldest beyond the cap. */
    method RecordVerdict(peer: Peer, now: nat)
      modifies this`verdicts
      ensures verdicts == Recorded(old(verdicts), peer, now)
    {
      if !IsHexPeerId(peer) {
        return;
      }
      verdicts := Retained(verdicts, peer, now) + [Verdict(peer, now)];
      ghost var all := verdicts;
      while |verdicts| > MAX_BAD_DESCRIPTOR_PEERS
        invariant Newest(verdicts) == Newest(all)
      {
        verdicts := verdicts[1..];
      }
    }

    /** The peers with a still-live verdict; an unreadable store remembers none. */
    function Remembered(): seq<Peer>
      reads this
    {
      if faults(ops, Remembering) then [] else LivePeers(verdicts, clock(ops))
    }

    method RememberedVerdicts() returns (peers: seq<Peer>)
      modifies this`ops
      ensures peers == old(Remembered()) && ops == old(ops) + 1
    {
      peers := Remembered();
      ops := ops + 1;
    }
  }
}
