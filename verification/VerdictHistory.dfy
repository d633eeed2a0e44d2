/** The verdict list refines the full history of records: a bounded list loses nothing it should remember. */
module VerdictHistory {
  import opened Basics
  import opened Progress

  /** The list after recording a whole history, oldest first. */
  function Run(h: seq<Verdict>): seq<Verdict> {
    if h == [] then []
    else
      var r := h[|h| - 1];
      Recorded(Run(h[..|h| - 1]), r.peer, r.at)
  }

  /** Record `i` is its well-formed peer's most recent one and has not expired at `now`. */
  predicate Live(h: seq<Verdict>, now: nat, i: nat)
    requires i < |h|
  {
    && IsHexPeerId(h[i].peer)
    && !IsExpired(h[i], now)
    && forall j :: i < j < |h| ==> h[j].peer != h[i].peer
  }

  /** The live records among the first `n`, in the order they were made. */
  function LiveRecords(h: seq<Verdict>, now: nat, n: nat): (r: seq<Verdict>)
    requires n <= |h|
  {
    if n == 0 then []
    else if Live(h, now, n - 1) then LiveRecords(h, now, n - 1) + [h[n - 1]]
    else LiveRecords(h, now, n - 1)
  }

  /** When the last well-formed record was made. */
  function LastTime(h: seq<Verdict>): nat {
    if h == [] then 0
    else if IsHexPeerId(h[|h| - 1].peer) then h[|h| - 1].at
    else LastTime(h[..|h| - 1])
  }

  ghost predicate Clocked(h: seq<Verdict>) {
    forall i, j :: 0 <= i < j < |h| ==> h[i].at <= h[j].at
  }

  /** Under a clock that never steps back, the bounded list is always the newest 32 live records of the history:
      distinct well-formed peers, each at its latest record, none expired at the last well-formed record. */
  lemma {:induction false} ListRefinesHistory(h: seq<Verdict>)
    requires Clocked(h)
    ensures Run(h) == Newest(LiveRecords(h, LastTime(h), |h|))
  {
    if h != [] {
      var (init, r) := (h[..|h| - 1], h[|h| - 1]);
      ListRefinesHistory(init);
      LastTimeBound(init, r.at);
      var live := LiveRecords(init, LastTime(init), |init|);
      assert h == init + [r];
      if IsHexPeerId(r.peer) {
        AppendLive(init, r, LastTime(init), |init|);
        Ordered(init, LastTime(init), |init|);
        EvictionForgetsNothing(live, r.peer, r.at);
      } else {
        AppendMalformed(init, r, LastTime(init), |init|);
      }
    }
  }

  lemma {:induction false} LastTimeBound(h: seq<Verdict>, now: nat)
    requires forall i :: 0 <= i < |h| ==> h[i].at <= now
    ensures LastTime(h) <= now
  {
    if h != [] {
      LastTimeBound(h[..|h| - 1], now);
    }
  }

  lemma {:induction false} AppendLive(h: seq<Verdict>, r: Verdict, before: nat, n: nat)
    requires n <= |h| && before <= r.at
    ensures LiveRecords(h + [r], r.at, n) == Retained(LiveRecords(h, before, n), r.peer, r.at)
  {
    if n > 0 {
      AppendLive(h, r, before, n - 1);
      var (h', v) := (h + [r], h[n - 1]);
      assert h'[n - 1] == v && h'[|h|] == r;
      assert Live(h', r.at, n - 1) <==> Live(h, before, n - 1) && !IsExpired(v, r.at) && v.peer != r.peer by {
        if Live(h, before, n - 1) && !IsExpired(v, r.at) && v.peer != r.peer {
          assert forall j :: n - 1 < j < |h| ==> h'[j] == h[j];
        }
        if Live(h', r.at, n - 1) {
          assert forall j :: n - 1 < j < |h| ==> h[j] == h'[j];
        }
      }
      var live := LiveRecords(h, before, n - 1);
      assert (live + [v])[..|live|] == live;
    }
  }

  lemma {:induction false} AppendMalformed(h: seq<Verdict>, r: Verdict, now: nat, n: nat)
    requires n <= |h| && !IsHexPeerId(r.peer)
    ensures LiveRecords(h + [r], now, n) == LiveRecords(h, now, n)
  {
    if n > 0 {
      AppendMalformed(h, r, now, n - 1);
      var h' := h + [r];
      assert forall j :: 0 <= j < |h| ==> h'[j] == h[j];
      assert Live(h', now, n - 1) <==> Live(h, now, n - 1);
    }
  }

  /** Oldest first, one record per peer. */
  ghost predicate OnePerPeer(verdicts: seq<Verdict>) {
    forall i, j :: 0 <= i < j < |verdicts| ==>
                     verdicts[i].at <= verdicts[j].at && verdicts[i].peer != verdicts[j].peer
  }

  lemma {:induction false} Ordered(h: seq<Verdict>, now: nat, n: nat)
    requires Clocked(h) && n <= |h|
    ensures OnePerPeer(LiveRecords(h, now, n))
    ensures forall v :: v in LiveRecords(h, now, n) ==> exists i :: 0 <= i < n && Live(h, now, i) && h[i] == v
  {
    if n > 0 {
      Ordered(h, now, n - 1);
      var live := LiveRecords(h, now, n - 1);
      forall i | 0 <= i < |live| && Live(h, now, n - 1)
        ensures live[i].at <= h[n - 1].at && live[i].peer != h[n - 1].peer
      {
        assert live[i] in live;
      }
    }
  }

  lemma {:induction false} RetainedConcat(a: seq<Verdict>, b: seq<Verdict>, peer: Peer, now: nat)
    ensures Retained(a + b, peer, now) == Retained(a, peer, now) + Retained(b, peer, now)
  {
    if b == [] {
      assert a + b == a;
    } else {
      var init := b[..|b| - 1];
      RetainedConcat(a, init, peer, now);
      assert (a + b)[..|a + b| - 1] == a + init;
    }
  }

  lemma {:induction false} RetainedAlive(verdicts: seq<Verdict>, peer: Peer, now: nat)
    requires OnePerPeer(verdicts) && forall v :: v in verdicts ==> !IsExpired(v, now)
    ensures |Retained(verdicts, peer, now)| >= |verdicts| - 1
    ensures (forall v :: v in verdicts ==> v.peer != peer) ==> Retained(verdicts, peer, now) == verdicts
  {
    if verdicts != [] {
      var (init, v) := (verdicts[..|verdicts| - 1], verdicts[|verdicts| - 1]);
      assert verdicts == init + [v];
      RetainedAlive(init, peer, now);
    }
  }

  lemma {:induction false} RetainedNone(verdicts: seq<Verdict>, peer: Peer, now: nat)
    requires forall v :: v in verdicts ==> IsExpired(v, now)
    ensures Retained(verdicts, peer, now) == []
  {
    if verdicts != [] {
      RetainedNone(verdicts[..|verdicts| - 1], peer, now);
    }
  }

  /** Capping the list before the next record gives the same list as capping only afterwards. */
  lemma EvictionForgetsNothing(all: seq<Verdict>, peer: Peer, now: nat)
    requires OnePerPeer(all)
    ensures Newest(Retained(Newest(all), peer, now) + [Verdict(peer, now)])
         == Newest(Retained(all, peer, now) + [Verdict(peer, now)])
  {
    if |all| > MAX_BAD_DESCRIPTOR_PEERS {
      var (dropped, kept) := (all[..|all| - MAX_BAD_DESCRIPTOR_PEERS], Newest(all));
      assert all == dropped + kept;
      RetainedConcat(dropped, kept, peer, now);
      if i :| 0 <= i < |dropped| && !IsExpired(dropped[i], now) {
        forall v | v in kept ensures !IsExpired(v, now) {
          var j :| 0 <= j < |kept| && kept[j] == v;
          assert all[i].at <= all[|dropped| + j].at;
        }
        RetainedAlive(kept, peer, now);
        KeepsNewest(Retained(dropped, peer, now), Retained(kept, peer, now), Verdict(peer, now));
      } else {
        RetainedNone(dropped, peer, now);
        assert [] + Retained(kept, peer, now) == Retained(kept, peer, now);
      }
    }
  }

  lemma KeepsNewest(a: seq<Verdict>, b: seq<Verdict>, v: Verdict)
    requires |b| >= MAX_BAD_DESCRIPTOR_PEERS - 1
    ensures Newest(a + b + [v]) == Newest(b + [v])
  {
  }
}
