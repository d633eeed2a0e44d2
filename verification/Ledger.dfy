/** The books the resource scheduler keeps while it runs, as one value, and the steps that change them. */
module Ledger {
  import opened Basics
  import opened Plan
  import opened Hasher

  /** A range being fetched. `known` says whether its holder was still a known provider when it was issued. */
  datatype Flight = Flight(index: nat, peer: Peer, known: bool)

  datatype Caps = Caps(concurrency: nat, perSource: nat)

  /** `lens` are the planned range lengths; `fed` holds the verified bytes of the ranges done so far; `issued`,
      `accepted` and `failed` count this run's fetches. */
  datatype Books = Books(
    lens: seq<nat>, state: seq<RangeState>, done: set<nat>, bytesDone: nat, load: map<Peer, nat>,
    flights: seq<Flight>, fed: map<nat, Bytes>, hashed: Option<HasherState>,
    issued: nat, accepted: nat, failed: nat)

  function LoadOf(load: map<Peer, nat>, peer: Peer): nat { if peer in load then load[peer] else 0 }

  /** How many ranges are in state `x`. */
  function Tally(state: seq<RangeState>, x: RangeState): nat { multiset(state)[x] }

  /** The bytes of the done ranges among the first `k`. */
  function DoneBytes(lens: seq<nat>, state: seq<RangeState>, k: nat): nat
    requires k <= |lens| == |state|
  {
    if k == 0 then 0 else DoneBytes(lens, state, k - 1) + if state[k - 1].Done? then lens[k - 1] else 0
  }

  /** Done ranges are exactly the checkpointed ones of the plan. */
  ghost predicate DoneAgrees(state: seq<RangeState>, done: set<nat>) {
    forall i: nat :: i < |state| ==> (state[i].Done? <==> i in done)
  }

  /** Done ranges are exactly those whose bytes were verified, at their planned length. */
  ghost predicate FedAgrees(lens: seq<nat>, state: seq<RangeState>, fed: map<nat, Bytes>)
    requires |lens| == |state|
  {
    && (forall i: nat :: i in fed <==> i < |state| && state[i].Done?)
    && forall i: nat :: i in fed ==> |fed[i]| == lens[i]
  }

  /** Each flight is of a range in flight from its holder, no range has two, and every range in flight has one. */
  ghost predicate FlightsAgree(state: seq<RangeState>, flights: seq<Flight>) {
    && (forall k :: 0 <= k < |flights| ==>
                      flights[k].index < |state| && state[flights[k].index] == InFlight(flights[k].peer))
    && (forall j, k :: 0 <= j < k < |flights| ==> flights[j].index != flights[k].index)
    && |flights| + Tally(state, Done) + Tally(state, Pending) == |state|
  }

  /** A holder's load is the number of ranges in flight from it. */
  ghost predicate LoadAgrees(state: seq<RangeState>, load: map<Peer, nat>) {
    forall p: Peer :: LoadOf(load, p) == Tally(state, InFlight(p))
  }

  ghost predicate WithinCaps(b: Books, caps: Caps) {
    |b.flights| <= caps.concurrency && forall p: Peer :: LoadOf(b.load, p) <= caps.perSource
  }

  /** Every fetch issued is in flight, accepted or failed, and no two accepted or in flight are of one range. */
  ghost predicate Counted(b: Books) {
    b.issued == |b.flights| + b.accepted + b.failed && b.accepted <= Tally(b.state, Done)
  }

  /** The scheduler's invariant. */
  ghost predicate Balanced(b: Books, caps: Caps) {
    && |b.state| == |b.lens| && Tiling(b.lens)
    && DoneAgrees(b.state, b.done) && FedAgrees(b.lens, b.state, b.fed)
    && (b.hashed.Some? ==> Settled(b.hashed.value, b.lens, b.fed))
    && b.bytesDone == DoneBytes(b.lens, b.state, |b.lens|)
    && FlightsAgree(b.state, b.flights) && LoadAgrees(b.state, b.load)
    && WithinCaps(b, caps) && Counted(b)
  }

  // ---- steps --------------------------------------------------------------------------------------

  function Without<T>(s: seq<T>, k: nat): (r: seq<T>)
    requires k < |s|
    ensures |r| == |s| - 1
  {
    s[..k] + s[k + 1..]
  }

  /** `fill` hands range `i` to `peer`. */
  function Issue(b: Books, i: nat, peer: Peer, known: bool): Books
    requires i < |b.state|
  {
    b.(state := b.state[i := InFlight(peer)], load := b.load[peer := LoadOf(b.load, peer) + 1],
       flights := b.flights + [Flight(i, peer, known)], issued := b.issued + 1)
  }

  /** The in-flight entry of a completed fetch is dropped and its holder relieved. */
  function Relieve(load: map<Peer, nat>, peer: Peer): map<Peer, nat> {
    if peer in load then load[peer := if load[peer] == 0 then 0 else load[peer] - 1] else load
  }

  /** The hasher, if there is one, is fed range `i`. */
  function FedTo(hashed: Option<HasherState>, lens: seq<nat>, i: nat, bytes: Bytes): Option<HasherState>
    requires i < |lens|
  {
    if hashed.Some? then Some(Fed(hashed.value, Offset(lens, i), bytes)) else None
  }

  /** Flight `k` is of a planned range. */
  predicate Lands(b: Books, k: nat) { k < |b.flights| && b.flights[k].index < |b.state| == |b.lens| }

  /** Flight `k` is over and its range done with `bytes`. */
  function Mark(b: Books, k: nat, bytes: Bytes): Books
    requires Lands(b, k)
  {
    var i := b.flights[k].index;
    b.(state := b.state[i := Done], done := b.done + {i}, bytesDone := Min(b.bytesDone + b.lens[i], U64_MAX),
       load := Relieve(b.load, b.flights[k].peer), flights := Without(b.flights, k), fed := b.fed[i := bytes],
       accepted := b.accepted + 1)
  }

  /** The fetch of flight `k` brought `bytes` that verified. */
  function Accept(b: Books, k: nat, bytes: Bytes): Books
    requires Lands(b, k)
  {
    Mark(b.(hashed := FedTo(b.hashed, b.lens, b.flights[k].index, bytes)), k, bytes)
  }

  /** The fetch of flight `k` failed recoverably. */
  function Requeue(b: Books, k: nat): Books
    requires Lands(b, k)
  {
    b.(state := b.state[b.flights[k].index := Pending], load := Relieve(b.load, b.flights[k].peer),
       flights := Without(b.flights, k), failed := b.failed + 1)
  }

  // ---- every step keeps the invariant -------------------------------------------------------------

  lemma TallyUpdate(state: seq<RangeState>, i: nat, x: RangeState, y: RangeState)
    requires i < |state|
    ensures Tally(state[i := x], y) ==
            Tally(state, y) - (if state[i] == y then 1 else 0) + (if x == y then 1 else 0)
    ensures state[i] == y ==> Tally(state, y) > 0
  {
    assert multiset(state[i := x]) == multiset(state) - multiset{state[i]} + multiset{x};
  }

  lemma {:induction false} DoneBytesUpdate(lens: seq<nat>, state: seq<RangeState>, i: nat, x: RangeState, k: nat)
    requires i < |lens| == |state| && k <= |lens| && !state[i].Done?
    ensures DoneBytes(lens, state[i := x], k) ==
            DoneBytes(lens, state, k) + if x.Done? && i < k then lens[i] else 0
  {
    if k > 0 {
      DoneBytesUpdate(lens, state, i, x, k - 1);
    }
  }

  lemma {:induction false} DoneBytesBound(lens: seq<nat>, state: seq<RangeState>, k: nat)
    requires k <= |lens| == |state|
    ensures DoneBytes(lens, state, k) <= Offset(lens, k)
    ensures (forall i :: 0 <= i < k ==> state[i].Done?) ==> DoneBytes(lens, state, k) == Offset(lens, k)
  {
    if k > 0 {
      DoneBytesBound(lens, state, k - 1);
    }
  }

  lemma FlightAdded(state: seq<RangeState>, flights: seq<Flight>, i: nat, peer: Peer, known: bool)
    requires FlightsAgree(state, flights) && i < |state| && state[i] == Pending
    ensures FlightsAgree(state[i := InFlight(peer)], flights + [Flight(i, peer, known)])
  {
    TallyUpdate(state, i, InFlight(peer), Done);
    TallyUpdate(state, i, InFlight(peer), Pending);
    hide Tally;
  }

  lemma FlightLanded(state: seq<RangeState>, flights: seq<Flight>, k: nat, x: RangeState)
    requires FlightsAgree(state, flights) && k < |flights| && !x.InFlight?
    ensures FlightsAgree(state[flights[k].index := x], Without(flights, k))
  {
    TallyUpdate(state, flights[k].index, x, Done);
    TallyUpdate(state, flights[k].index, x, Pending);
    hide Tally;
    var rest := Without(flights, k);
    assert forall j :: 0 <= j < |rest| ==> rest[j] == flights[if j < k then j else j + 1];
  }

  lemma LoadAdded(state: seq<RangeState>, load: map<Peer, nat>, i: nat, peer: Peer)
    requires LoadAgrees(state, load) && i < |state| && state[i] == Pending
    ensures LoadAgrees(state[i := InFlight(peer)], load[peer := LoadOf(load, peer) + 1])
  {
    forall p: Peer
      ensures LoadOf(load[peer := LoadOf(load, peer) + 1], p) == Tally(state[i := InFlight(peer)], InFlight(p))
    {
      TallyUpdate(state, i, InFlight(peer), InFlight(p));
      assert LoadOf(load, p) == Tally(state, InFlight(p));
    }
  }

  lemma LoadRelieved(state: seq<RangeState>, load: map<Peer, nat>, i: nat, peer: Peer, x: RangeState)
    requires LoadAgrees(state, load) && i < |state| && state[i] == InFlight(peer) && !x.InFlight?
    ensures LoadAgrees(state[i := x], Relieve(load, peer))
    ensures forall p: Peer :: LoadOf(Relieve(load, peer), p) <= LoadOf(load, p)
  {
    forall p: Peer ensures LoadOf(Relieve(load, peer), p) == Tally(state[i := x], InFlight(p)) {
      TallyUpdate(state, i, x, InFlight(p));
      assert LoadOf(load, p) == Tally(state, InFlight(p));
    }
  }

  lemma IssueKeeps(b: Books, caps: Caps, i: nat, peer: Peer, known: bool)
    requires Balanced(b, caps) && i < |b.state| && b.state[i] == Pending
    requires |b.flights| < caps.concurrency && LoadOf(b.load, peer) < caps.perSource
    ensures Balanced(Issue(b, i, peer, known), caps)
  {
    FlightAdded(b.state, b.flights, i, peer, known);
    LoadAdded(b.state, b.load, i, peer);
    DoneBytesUpdate(b.lens, b.state, i, InFlight(peer), |b.lens|);
    TallyUpdate(b.state, i, InFlight(peer), Done);
    hide FlightsAgree, LoadAgrees, Tally, Settled, DoneBytes, Tiling;
  }

  lemma RequeueKeeps(b: Books, caps: Caps, k: nat)
    requires Balanced(b, caps) && k < |b.flights|
    ensures Lands(b, k)
    ensures Balanced(Requeue(b, k), caps)
  {
    var i := b.flights[k].index;
    FlightLanded(b.state, b.flights, k, Pending);
    LoadRelieved(b.state, b.load, i, b.flights[k].peer, Pending);
    DoneBytesUpdate(b.lens, b.state, i, Pending, |b.lens|);
    TallyUpdate(b.state, i, Pending, Done);
    hide FlightsAgree, LoadAgrees, Tally, Settled, DoneBytes, Tiling, Relieve, LoadOf;
  }

  lemma DoneAdds(lens: seq<nat>, state: seq<RangeState>, done: set<nat>, fed: map<nat, Bytes>, i: nat, bytes: Bytes)
    requires |lens| == |state| && DoneAgrees(state, done) && FedAgrees(lens, state, fed)
    requires i < |state| && !state[i].Done? && |bytes| == lens[i]
    ensures DoneAgrees(state[i := Done], done + {i}) && FedAgrees(lens, state[i := Done], fed[i := bytes])
    ensures i !in fed
  {
  }

  lemma AcceptCounts(b: Books, caps: Caps, k: nat, bytes: Bytes)
    requires WithinCaps(b, caps) && Counted(b) && Lands(b, k)
    requires !b.state[b.flights[k].index].Done?
    requires forall p: Peer :: LoadOf(Relieve(b.load, b.flights[k].peer), p) <= LoadOf(b.load, p)
    ensures WithinCaps(Accept(b, k, bytes), caps) && Counted(Accept(b, k, bytes))
  {
    TallyUpdate(b.state, b.flights[k].index, Done, Done);
    hide Tally, Relieve, LoadOf;
  }

  lemma AcceptKeeps(b: Books, caps: Caps, k: nat, bytes: Bytes)
    requires Balanced(b, caps) && k < |b.flights|
    requires b.flights[k].index < |b.lens| ==> |bytes| == b.lens[b.flights[k].index]
    ensures Lands(b, k)
    ensures Balanced(Accept(b, k, bytes), caps)
  {
    var i := b.flights[k].index;
    FlightLanded(b.state, b.flights, k, Done);
    LoadRelieved(b.state, b.load, i, b.flights[k].peer, Done);
    DoneBytesUpdate(b.lens, b.state, i, Done, |b.lens|);
    DoneBytesBound(b.lens, b.state[i := Done], |b.lens|);
    TallyUpdate(b.state, i, Done, Done);
    DoneAdds(b.lens, b.state, b.done, b.fed, i, bytes);
    AcceptCounts(b, caps, k, bytes);
    hide WithinCaps, Counted;
    if b.hashed.Some? {
      FeedSettles(b.hashed.value, b.lens, b.fed, i, bytes);
    }
    assert Offset(b.lens, |b.lens|) <= U64_MAX;
    hide FlightsAgree, LoadAgrees, Tally, Settled, DoneBytes, Tiling, Relieve, LoadOf, Offset, Fed, FedAgrees;
    hide DoneAgrees, Without;
  }

  // ---- what balanced books mean -------------------------------------------------------------------

  predicate AllDone(state: seq<RangeState>) { state != [] && forall i :: 0 <= i < |state| ==> state[i].Done? }

  lemma {:induction false} TallyAll(state: seq<RangeState>)
    requires forall i :: 0 <= i < |state| ==> state[i].Done?
    ensures Tally(state, Done) == |state|
  {
    if state != [] {
      var init := state[..|state| - 1];
      assert state == init + [Done];
      TallyAll(init);
    }
  }

  /** When every range is done, the hasher has hashed the whole resource and every byte is counted. */
  lemma AllHashed(b: Books, caps: Caps)
    requires Balanced(b, caps) && AllDone(b.state)
    ensures forall i :: 0 <= i < |b.lens| ==> i in b.fed
    ensures b.flights == [] && b.bytesDone == Offset(b.lens, |b.lens|)
    ensures b.hashed.Some? ==>
              && b.hashed.value.absorbed == Joined(b.fed, |b.lens|)
              && b.hashed.value.nextOffset == Offset(b.lens, |b.lens|)
  {
    DoneBytesBound(b.lens, b.state, |b.lens|);
    TallyAll(b.state);
  }

  lemma {:induction false} Crowded(s: set<nat>, n: nat)
    requires forall i :: i in s ==> i < n
    ensures |s| <= n
    ensures |s| == n ==> forall i: nat :: i < n ==> i in s
  {
    if n == 0 {
      assert s == {};
    } else {
      Crowded(s - {n - 1}, n - 1);
    }
  }

  /** How far the run is: all ranges are done once as many were fed. */
  lemma FedCount(b: Books, caps: Caps)
    requires Balanced(b, caps) && b.lens != []
    ensures |b.fed| <= |b.lens| && (|b.fed| == |b.lens| <==> AllDone(b.state))
  {
    Crowded(b.fed.Keys, |b.lens|);
    if AllDone(b.state) {
      Covers(b.fed.Keys, |b.lens|);
    }
    hide FlightsAgree, LoadAgrees, Tally, Settled, DoneBytes, Tiling, WithinCaps, Counted;
  }

  lemma {:induction false} Covers(s: set<nat>, n: nat)
    requires forall i: nat :: i < n ==> i in s
    ensures |s| >= n
  {
    if n > 0 {
      Covers(s - {n - 1}, n - 1);
    }
  }

  /** With nothing in flight every holder is idle, and what is not done is pending. */
  lemma Idle(b: Books, caps: Caps)
    requires Balanced(b, caps) && b.flights == []
    ensures forall p: Peer :: LoadOf(b.load, p) == 0
    ensures b.state != [] && !AllDone(b.state) ==> Pending in b.state
  {
    forall p: Peer ensures LoadOf(b.load, p) == 0 {
      TallyThree(b.state, p);
    }
    if b.state != [] && !AllDone(b.state) {
      var i :| 0 <= i < |b.state| && !b.state[i].Done?;
      if b.state[i].InFlight? {
        TallyThree(b.state, b.state[i].peer);
      }
    }
    hide Settled, Tiling, DoneBytes, FedAgrees, DoneAgrees;
  }

  lemma {:induction false} TallyThree(state: seq<RangeState>, p: Peer)
    ensures Tally(state, Done) + Tally(state, Pending) + Tally(state, InFlight(p)) <= |state|
  {
    if state != [] {
      var (init, last) := (state[..|state| - 1], state[|state| - 1]);
      assert state == init + [last];
      TallyThree(init, p);
    }
  }

  lemma {:induction false} JoinedLength(fed: map<nat, Bytes>, lens: seq<nat>, f: nat)
    requires f <= |lens| && forall i :: 0 <= i < f ==> i in fed && |fed[i]| == lens[i]
    ensures |Joined(fed, f)| == Offset(lens, f)
  {
    if f > 0 {
      JoinedLength(fed, lens, f - 1);
    }
  }

  /** No run issues more fetches than ranges plus failures. */
  lemma IssuedBound(b: Books, caps: Caps)
    requires Balanced(b, caps)
    ensures b.issued <= |b.lens| + b.failed
  {
  }

  /** What was done stays done with the same bytes: no done range is ever fetched again. */
  ghost predicate Extends(b: Books, b': Books) {
    b'.lens == b.lens && forall i :: i in b.fed ==> i in b'.fed && b'.fed[i] == b.fed[i]
  }

  lemma AcceptExtends(b: Books, caps: Caps, k: nat, bytes: Bytes)
    requires Balanced(b, caps) && Lands(b, k)
    ensures Extends(b, Accept(b, k, bytes))
  {
  }

  // ---- staging --------------------------------------------------------------------------------------

  /** The staged bytes of range `i` are `bytes`. */
  predicate Holds(buf: Bytes, lens: seq<nat>, i: nat, bytes: Bytes)
    requires i < |lens|
  {
    Offset(lens, i) + |bytes| <= |buf| && buf[Offset(lens, i)..Offset(lens, i) + |bytes|] == bytes
  }

  /** Every done range is staged with its verified bytes. */
  ghost predicate Staged(buf: Bytes, lens: seq<nat>, fed: map<nat, Bytes>) {
    forall i: nat :: i in fed ==> i < |lens| && |fed[i]| == lens[i] && Holds(buf, lens, i, fed[i])
  }

  /** Writing one range leaves every other range alone. */
  lemma WriteStages(buf: Bytes, lens: seq<nat>, fed: map<nat, Bytes>, i: nat, bytes: Bytes)
    requires Staged(buf, lens, fed) && i < |lens| && |bytes| == lens[i]
    ensures Staged(Splice(buf, Offset(lens, i), bytes), lens, fed[i := bytes])
  {
    assert Splice(buf, Offset(lens, i), bytes)[Offset(lens, i)..Offset(lens, i) + |bytes|] == bytes;
    assert Holds(Splice(buf, Offset(lens, i), bytes), lens, i, bytes);
    hide Holds, Splice, Offset;
    forall j: nat | j in fed && j != i ensures Holds(Splice(buf, Offset(lens, i), bytes), lens, j, fed[j]) {
      StillHolds(buf, lens, i, bytes, j, fed[j]);
    }
  }

  lemma StillHolds(buf: Bytes, lens: seq<nat>, i: nat, bytes: Bytes, j: nat, other: Bytes)
    requires i < |lens| && j < |lens| && i != j && |bytes| == lens[i] && |other| == lens[j]
    requires Holds(buf, lens, j, other)
    ensures Holds(Splice(buf, Offset(lens, i), bytes), lens, j, other)
  {
    Apart(lens, i, j);
    SpliceApart(buf, Offset(lens, i), bytes, Offset(lens, j), other);
  }

  lemma SpliceApart(buf: Bytes, at: nat, data: Bytes, o: nat, bytes: Bytes)
    requires o + |bytes| <= |buf| && buf[o..o + |bytes|] == bytes
    requires at + |data| <= o || o + |bytes| <= at
    ensures Splice(buf, at, data)[o..o + |bytes|] == bytes
  {
    forall x | 0 <= x < |bytes| ensures Splice(buf, at, data)[o..o + |bytes|][x] == bytes[x] {
      assert buf[o..o + |bytes|][x] == buf[o + x];
    }
  }

  lemma Apart(lens: seq<nat>, i: nat, j: nat)
    requires i < |lens| && j < |lens| && i != j
    ensures Offset(lens, i) + lens[i] <= Offset(lens, j) || Offset(lens, j) + lens[j] <= Offset(lens, i)
  {
    hide Offset;
    if i < j {
      EndsBefore(lens, i, j);
    } else {
      EndsBefore(lens, j, i);
    }
  }

  lemma EndsBefore(lens: seq<nat>, i: nat, j: nat)
    requires i < j < |lens|
    ensures Offset(lens, i) + lens[i] <= Offset(lens, j)
  {
    hide Offset;
    OffsetStep(lens, i);
    OffsetMonotone(lens, i + 1, j);
  }

  /** Fully staged, the staging area starts with the ranges' bytes in order. */
  lemma {:induction false} StagedJoins(buf: Bytes, lens: seq<nat>, fed: map<nat, Bytes>, f: nat)
    requires Staged(buf, lens, fed) && f <= |lens| && forall i :: 0 <= i < f ==> i in fed
    ensures Offset(lens, f) <= |buf| && buf[..Offset(lens, f)] == Joined(fed, f)
  {
    hide Staged;
    if f == 0 {
      assert buf[..0] == [];
    } else {
      StagedJoins(buf, lens, fed, f - 1);
      HeldAt(buf, lens, fed, f - 1);
      hide Offset;
      SliceSplit(buf, Offset(lens, f - 1), Offset(lens, f));
      assert buf[..Offset(lens, f)] == Joined(fed, f - 1) + fed[f - 1];
    }
  }

  lemma HeldAt(buf: Bytes, lens: seq<nat>, fed: map<nat, Bytes>, i: nat)
    requires Staged(buf, lens, fed) && i in fed
    ensures i < |lens| && Offset(lens, i) <= Offset(lens, i + 1) <= |buf|
    ensures buf[Offset(lens, i)..Offset(lens, i + 1)] == fed[i]
  {
    assert Holds(buf, lens, i, fed[i]);
  }

  lemma SliceSplit(buf: Bytes, o: nat, e: nat)
    requires o <= e <= |buf|
    ensures buf[..e] == buf[..o] + buf[o..e]
  {
  }

  /** Tile `i` of the first `f` is the bytes fed for it. */
  lemma {:induction false} JoinedSlice(fed: map<nat, Bytes>, lens: seq<nat>, i: nat, f: nat)
    requires i < f <= |lens| && forall k :: 0 <= k < f ==> k in fed && |fed[k]| == lens[k]
    ensures Offset(lens, i) + lens[i] <= |Joined(fed, f)|
    ensures Joined(fed, f)[Offset(lens, i)..Offset(lens, i) + lens[i]] == fed[i]
  {
    JoinedLength(fed, lens, f - 1);
    assert Joined(fed, f) == Joined(fed, f - 1) + fed[f - 1];
    if i < f - 1 {
      JoinedSlice(fed, lens, i, f - 1);
      hide Joined, Offset;
      SliceOfFront(Joined(fed, f - 1), fed[f - 1], Offset(lens, i), lens[i]);
    } else {
      hide Joined, Offset;
      SliceOfBack(Joined(fed, f - 1), fed[f - 1]);
    }
    hide Joined, Offset;
  }

  lemma SliceOfBack(front: Bytes, back: Bytes)
    ensures (front + back)[|front|..|front| + |back|] == back
  {
  }

  lemma SliceOfFront(front: Bytes, back: Bytes, o: nat, l: nat)
    requires o + l <= |front|
    ensures (front + back)[o..o + l] == front[o..o + l]
  {
  }

  // ---- resuming -------------------------------------------------------------------------------------

  /** The books of a run about to resume: the checkpointed ranges are done, their bytes not yet read back. */
  function Resumed(lens: seq<nat>, done: set<nat>, hashed: Option<HasherState>): Books {
    var state := seq(|lens|, i requires 0 <= i < |lens| => if i in done then Done else Pending);
    Books(lens, state, done, DoneBytes(lens, state, |lens|), map[], [], map[], hashed, 0, 0, 0)
  }

  /** The staged bytes of range `i` verified. */
  function Keep(b: Books, i: nat, bytes: Bytes): Books
    requires i < |b.lens|
  {
    b.(fed := b.fed[i := bytes], hashed := FedTo(b.hashed, b.lens, i, bytes))
  }

  /** The staged bytes of range `i` did not verify: it is to be fetched again. */
  function Drop(b: Books, i: nat): Books
    requires i < |b.lens| == |b.state|
  {
    b.(state := b.state[i := Pending], done := b.done - {i},
       bytesDone := if b.bytesDone <= b.lens[i] then 0 else b.bytesDone - b.lens[i])
  }

  /** The first `k` ranges have been dealt with. */
  ghost predicate Rehydrating(b: Books, k: nat) {
    && |b.state| == |b.lens| && Tiling(b.lens) && k <= |b.lens| && DoneAgrees(b.state, b.done)
    && (forall i :: 0 <= i < |b.state| ==> !b.state[i].InFlight?)
    && (forall i: nat :: i in b.fed <==> i < k && b.state[i].Done?)
    && (forall i: nat :: i in b.fed ==> |b.fed[i]| == b.lens[i])
    && (b.hashed.Some? ==> Settled(b.hashed.value, b.lens, b.fed))
    && b.bytesDone == DoneBytes(b.lens, b.state, |b.lens|)
    && b.flights == [] && b.load == map[] && b.issued == b.accepted == b.failed == 0
  }

  lemma StartsRehydrating(lens: seq<nat>, done: set<nat>, hashed: Option<HasherState>)
    requires Tiling(lens) && (hashed.Some? ==> hashed.value == FRESH)
    ensures Rehydrating(Resumed(lens, done, hashed), 0)
  {
    assert HashedTo(FRESH, lens, map[], 0);
  }

  lemma KeepRehydrates(b: Books, k: nat, bytes: Bytes)
    requires Rehydrating(b, k) && k < |b.lens| && b.state[k].Done? && |bytes| == b.lens[k]
    ensures Rehydrating(Keep(b, k, bytes), k + 1)
  {
    if b.hashed.Some? {
      FeedSettles(b.hashed.value, b.lens, b.fed, k, bytes);
    }
    hide Settled, Tiling, Fed, DoneBytes, DoneAgrees;
  }

  lemma DropRehydrates(b: Books, k: nat)
    requires Rehydrating(b, k) && k < |b.lens| && b.state[k].Done?
    ensures Rehydrating(Drop(b, k), k + 1)
  {
    var state := b.state[k := Pending];
    DoneBytesUpdate(b.lens, state, k, Done, |b.lens|);
    assert state[k := Done] == b.state;
    hide Settled, Tiling, DoneBytes;
  }

  lemma SkipRehydrates(b: Books, k: nat)
    requires Rehydrating(b, k) && k < |b.lens| && !b.state[k].Done?
    ensures Rehydrating(b, k + 1)
  {
    hide Settled, Tiling, DoneBytes, DoneAgrees;
  }

  /** Once every range has been dealt with the books are balanced, whatever the checkpoint and the staging held. */
  lemma RehydratedBalances(b: Books, caps: Caps)
    requires Rehydrating(b, |b.lens|)
    ensures Balanced(b, caps)
  {
    TallyTwo(b.state);
    assert forall p: Peer :: InFlight(p) !in b.state;
    hide Settled, Tiling, DoneBytes;
  }

  lemma {:induction false} TallyTwo(state: seq<RangeState>)
    requires forall i :: 0 <= i < |state| ==> !state[i].InFlight?
    ensures Tally(state, Done) + Tally(state, Pending) == |state|
  {
    if state != [] {
      var (init, last) := (state[..|state| - 1], state[|state| - 1]);
      assert state == init + [last];
      TallyTwo(init);
    }
  }
}
