/** `ResourceHasher` of `src/verify.rs`: hashes a resource's tiles in offset order, fed in any order. */
module Hasher {
  import opened Basics

  /** `absorbed` is what the streaming SHA-256 has consumed; `pending` holds tiles ahead of the frontier. */
  datatype HasherState = HasherState(absorbed: Bytes, nextOffset: nat, pending: map<nat, Bytes>)

  const FRESH := HasherState([], 0, map[])

  function Drain(s: HasherState): HasherState
    decreases |s.pending|
  {
    if s.nextOffset !in s.pending then s
    else
      var chunk := s.pending[s.nextOffset];
      var rest := s.pending - {s.nextOffset};
      assert rest.Keys == s.pending.Keys - {s.nextOffset};
      Drain(HasherState(s.absorbed + chunk, Min(s.nextOffset + |chunk|, U64_MAX), rest))
  }

  function Fed(s: HasherState, offset: nat, bytes: Bytes): HasherState {
    if offset < s.nextOffset then s else Drain(s.(pending := s.pending[offset := bytes]))
  }

  class ResourceHasher {
    var absorbed: Bytes
    var nextOffset: nat
    var pending: map<nat, Bytes>

    function State(): HasherState
      reads this
    {
      HasherState(absorbed, nextOffset, pending)
    }

    constructor ()
      ensures State() == FRESH
    {
      absorbed, nextOffset, pending := [], 0, map[];
    }

    /** Feeds one verified tile; bytes before the frontier were already hashed and are ignored. */
    method Feed(offset: nat, bytes: Bytes)
      modifies this
      ensures State() == Fed(old(State()), offset, bytes)
    {
      if offset < nextOffset {
        return;
      }
      pending := pending[offset := bytes];
      ghost var target := Drain(State());
      while nextOffset in pending
        invariant Drain(State()) == target
        decreases |pending|
      {
        var chunk := pending[nextOffset];
        var rest := pending - {nextOffset};
        assert rest.Keys == pending.Keys - {nextOffset};
        absorbed, nextOffset, pending := absorbed + chunk, Min(nextOffset + |chunk|, U64_MAX), rest;
      }
    }
  }

  // ---- what the hasher has hashed -----------------------------------------------------------------

  /** Tiles as planned: only the last may be empty, so distinct tiles start at distinct offsets. */
  ghost predicate Tiling(lens: seq<nat>) {
    Offset(lens, |lens|) <= U64_MAX && forall i :: 0 <= i < |lens| - 1 ==> lens[i] > 0
  }

  /** The tiles fed so far, by index, each of its planned length. */
  ghost predicate TilesOf(lens: seq<nat>, fed: map<nat, Bytes>) {
    forall i :: i in fed ==> i < |lens| && |fed[i]| == lens[i]
  }

  /** The concatenation of tiles `0 .. f`. */
  function Joined(fed: map<nat, Bytes>, f: nat): Bytes
    requires forall i :: 0 <= i < f ==> i in fed
  {
    if f == 0 then [] else Joined(fed, f - 1) + fed[f - 1]
  }

  /** Exactly the fed tiles from `f` on are waiting, each under its own offset. */
  ghost predicate Waiting(pending: map<nat, Bytes>, lens: seq<nat>, fed: map<nat, Bytes>, f: nat)
    requires TilesOf(lens, fed)
  {
    && (forall i :: i in fed && f <= i ==> Offset(lens, i) in pending && pending[Offset(lens, i)] == fed[i])
    && (forall o :: o in pending ==> exists i :: i in fed && f <= i && Offset(lens, i) == o)
  }

  /** Every tile before `f` is fed and hashed, and exactly the fed tiles from `f` on are waiting. */
  ghost predicate HashedTo(s: HasherState, lens: seq<nat>, fed: map<nat, Bytes>, f: nat) {
    && TilesOf(lens, fed) && f <= |lens| && (forall i :: 0 <= i < f ==> i in fed)
    && s.nextOffset == Offset(lens, f)
    && s.absorbed == Joined(fed, f)
    && Waiting(s.pending, lens, fed, f)
  }

  /** The frontier is the longest fully fed prefix of tiles. */
  ghost predicate Settled(s: HasherState, lens: seq<nat>, fed: map<nat, Bytes>) {
    exists f: nat :: f !in fed && HashedTo(s, lens, fed, f)
  }

  lemma OffsetsDistinct(lens: seq<nat>, i: nat, j: nat)
    requires Tiling(lens) && i < j < |lens|
    ensures Offset(lens, i) < Offset(lens, j)
  {
    OffsetMonotone(lens, i + 1, j);
  }

  lemma {:induction false} DrainSettles(s: HasherState, lens: seq<nat>, fed: map<nat, Bytes>, f: nat)
    requires Tiling(lens) && HashedTo(s, lens, fed, f)
    ensures Settled(Drain(s), lens, fed)
    decreases |s.pending|
  {
    hide HashedTo;
    if s.nextOffset in s.pending {
      DrainStep(s, lens, fed, f);
      var next := HasherState(s.absorbed + fed[f], Offset(lens, f + 1), s.pending - {s.nextOffset});
      assert next.pending.Keys == s.pending.Keys - {s.nextOffset};
      DrainSettles(next, lens, fed, f + 1);
      assert Drain(s) == Drain(next);
    } else {
      DrainStop(s, lens, fed, f);
    }
  }

  lemma DrainStop(s: HasherState, lens: seq<nat>, fed: map<nat, Bytes>, f: nat)
    requires HashedTo(s, lens, fed, f) && s.nextOffset !in s.pending
    ensures f !in fed && Drain(s) == s
  {
  }

  /** Draining one tile advances the frontier by exactly that tile. */
  lemma DrainStep(s: HasherState, lens: seq<nat>, fed: map<nat, Bytes>, f: nat)
    requires Tiling(lens) && HashedTo(s, lens, fed, f) && s.nextOffset in s.pending
    ensures f in fed && f < |lens| && s.pending[s.nextOffset] == fed[f]
    ensures s.nextOffset + |fed[f]| == Offset(lens, f + 1) <= U64_MAX
    ensures HashedTo(HasherState(s.absorbed + fed[f], Offset(lens, f + 1), s.pending - {s.nextOffset}),
                     lens, fed, f + 1)
  {
    hide Waiting, Offset;
    NextTile(s, lens, fed, f);
    DrainedWaits(s.pending, lens, fed, f);
  }

  /** The pending tile at the frontier is the one that begins there. */
  lemma NextTile(s: HasherState, lens: seq<nat>, fed: map<nat, Bytes>, f: nat)
    requires Tiling(lens) && HashedTo(s, lens, fed, f) && s.nextOffset in s.pending
    ensures f in fed && f < |lens| && s.pending[s.nextOffset] == fed[f]
    ensures s.nextOffset + |fed[f]| == Offset(lens, f + 1) <= U64_MAX
  {
    hide Offset, Joined;
    var i :| i in fed && f <= i && Offset(lens, i) == s.nextOffset;
    if f < i {
      OffsetsDistinct(lens, f, i);
    }
    OffsetStep(lens, f);
    OffsetMonotone(lens, f + 1, |lens|);
  }

  /** Without it, exactly the later tiles wait. */
  lemma DrainedWaits(pending: map<nat, Bytes>, lens: seq<nat>, fed: map<nat, Bytes>, f: nat)
    requires Tiling(lens) && TilesOf(lens, fed) && Waiting(pending, lens, fed, f) && f in fed
    ensures Waiting(pending - {Offset(lens, f)}, lens, fed, f + 1)
  {
    var rest := pending - {Offset(lens, f)};
    forall j | j in fed && f + 1 <= j ensures Offset(lens, j) in rest && rest[Offset(lens, j)] == fed[j] {
      hide Offset, Tiling;
      OffsetsDistinct(lens, f, j);
    }
    forall o | o in rest ensures exists i :: i in fed && f + 1 <= i && Offset(lens, i) == o {
      StillBacked(lens, fed, f, o);
    }
    hide Offset, TilesOf, Tiling;
  }

  lemma StillBacked(lens: seq<nat>, fed: map<nat, Bytes>, f: nat, o: nat)
    requires TilesOf(lens, fed) && f <= |lens| && o != Offset(lens, f)
    requires exists i :: i in fed && f <= i && Offset(lens, i) == o
    ensures exists i :: i in fed && f + 1 <= i && Offset(lens, i) == o
  {
    hide Offset;
    var i :| i in fed && f <= i && Offset(lens, i) == o;
    assert f + 1 <= i;
  }

  lemma {:induction false} JoinedSame(fed: map<nat, Bytes>, more: map<nat, Bytes>, f: nat)
    requires forall i :: 0 <= i < f ==> i in fed && i in more && fed[i] == more[i]
    ensures Joined(fed, f) == Joined(more, f)
  {
    if f > 0 {
      JoinedSame(fed, more, f - 1);
    }
  }

  /** Feeding any tile, new or an exact repeat, at any moment keeps the frontier exact. */
  lemma FeedSettles(s: HasherState, lens: seq<nat>, fed: map<nat, Bytes>, i: nat, bytes: Bytes)
    requires Tiling(lens) && Settled(s, lens, fed) && i < |lens| && |bytes| == lens[i]
    requires i in fed ==> fed[i] == bytes
    ensures Settled(Fed(s, Offset(lens, i), bytes), lens, fed[i := bytes])
  {
    var f: nat :| f !in fed && HashedTo(s, lens, fed, f);
    FrontierAt(s, lens, fed, f);
    if f <= i {
      OffsetMonotone(lens, f, i);
      InsertWaits(s, lens, fed, f, i, bytes);
      hide HashedTo;
      DrainSettles(s.(pending := s.pending[Offset(lens, i) := bytes]), lens, fed[i := bytes], f);
    } else {
      RepeatIgnored(s, lens, fed, f, i);
    }
  }

  lemma FrontierAt(s: HasherState, lens: seq<nat>, fed: map<nat, Bytes>, f: nat)
    requires HashedTo(s, lens, fed, f)
    ensures f <= |lens| && s.nextOffset == Offset(lens, f)
  {
  }

  lemma InsertWaits(s: HasherState, lens: seq<nat>, fed: map<nat, Bytes>, f: nat, i: nat, bytes: Bytes)
    requires Tiling(lens) && HashedTo(s, lens, fed, f) && f <= i < |lens| && |bytes| == lens[i]
    requires i in fed ==> fed[i] == bytes
    ensures HashedTo(s.(pending := s.pending[Offset(lens, i) := bytes]), lens, fed[i := bytes], f)
  {
    JoinedSame(fed, fed[i := bytes], f);
    assert TilesOf(lens, fed[i := bytes]);
    hide Waiting, Offset, Joined, Tiling, TilesOf;
    InsertWaiting(s.pending, lens, fed, f, i, bytes);
  }

  lemma InsertWaiting(pending: map<nat, Bytes>, lens: seq<nat>, fed: map<nat, Bytes>, f: nat, i: nat, bytes: Bytes)
    requires Tiling(lens) && TilesOf(lens, fed) && Waiting(pending, lens, fed, f)
    requires f <= i < |lens| && |bytes| == lens[i]
    ensures Waiting(pending[Offset(lens, i) := bytes], lens, fed[i := bytes], f)
  {
    var (fed', o) := (fed[i := bytes], Offset(lens, i));
    var pending' := pending[o := bytes];
    forall j | j in fed' && f <= j ensures Offset(lens, j) in pending' && pending'[Offset(lens, j)] == fed'[j] {
      if j < i { OffsetsDistinct(lens, j, i); } else if i < j { OffsetsDistinct(lens, i, j); }
    }
    forall p | p in pending' ensures exists j :: j in fed' && f <= j && Offset(lens, j) == p {
      if p == o {
        assert i in fed';
      } else {
        var j :| j in fed && f <= j && Offset(lens, j) == p;
        assert j in fed';
      }
    }
  }

  lemma RepeatIgnored(s: HasherState, lens: seq<nat>, fed: map<nat, Bytes>, f: nat, i: nat)
    requires Tiling(lens) && HashedTo(s, lens, fed, f) && f !in fed && i < f
    ensures i in fed && fed[i := fed[i]] == fed && Fed(s, Offset(lens, i), fed[i]) == s
  {
    OffsetMonotone(lens, i + 1, f);
    if Offset(lens, i) == s.nextOffset { // the empty last tile
      assert lens[i] == 0 && f == |lens|;
      assert s.pending == map[];
      var s' := s.(pending := s.pending[s.nextOffset := fed[i]]);
      assert s'.pending - {s.nextOffset} == map[];
      assert Drain(s') == Drain(s);
    }
  }

  /** Feeds the tiles of `tiles` in the given order, repeats allowed. */
  function FeedAll(tiles: seq<Bytes>, order: seq<nat>): HasherState
    requires forall k :: 0 <= k < |order| ==> order[k] < |tiles|
  {
    if order == [] then FRESH
    else
      var last := order[|order| - 1];
      Fed(FeedAll(tiles, order[..|order| - 1]), Offset(Sizes(tiles), last), tiles[last])
  }

  function Sizes(tiles: seq<Bytes>): (l: seq<nat>)
    ensures |l| == |tiles|
  {
    seq(|tiles|, k requires 0 <= k < |tiles| => |tiles[k]|)
  }

  function Select(tiles: seq<Bytes>, order: seq<nat>): map<nat, Bytes> {
    map i | 0 <= i < |tiles| && i in order :: tiles[i]
  }

  function Concat(tiles: seq<Bytes>): Bytes {
    if tiles == [] then [] else Concat(tiles[..|tiles| - 1]) + tiles[|tiles| - 1]
  }

  lemma {:induction false} FeedAllSettles(tiles: seq<Bytes>, order: seq<nat>)
    requires Tiling(Sizes(tiles)) && forall k :: 0 <= k < |order| ==> order[k] < |tiles|
    ensures Settled(FeedAll(tiles, order), Sizes(tiles), Select(tiles, order))
  {
    if order == [] {
      assert HashedTo(FRESH, Sizes(tiles), Select(tiles, order), 0);
    } else {
      var (init, last) := (order[..|order| - 1], order[|order| - 1]);
      FeedAllSettles(tiles, init);
      assert order == init + [last];
      SelectMore(tiles, init, last);
      hide Settled, Select, Fed, Tiling;
      FeedSettles(FeedAll(tiles, init), Sizes(tiles), Select(tiles, init), last, tiles[last]);
    }
  }

  lemma SelectMore(tiles: seq<Bytes>, order: seq<nat>, last: nat)
    requires last < |tiles|
    ensures Select(tiles, order + [last]) == Select(tiles, order)[last := tiles[last]]
    ensures last in Select(tiles, order) ==> Select(tiles, order)[last] == tiles[last]
  {
  }

  lemma {:induction false} JoinedIsConcat(tiles: seq<Bytes>, fed: map<nat, Bytes>, f: nat)
    requires f <= |tiles| && forall i :: 0 <= i < f ==> i in fed && fed[i] == tiles[i]
    ensures Joined(fed, f) == Concat(tiles[..f])
  {
    if f > 0 {
      JoinedIsConcat(tiles, fed, f - 1);
      assert tiles[..f][..f - 1] == tiles[..f - 1];
    }
  }

  /** In whatever order the tiles arrive, repeats included, the hashed bytes are always the longest fully fed
      prefix of the resource; once every tile arrived they are the whole resource and nothing is left waiting. */
  lemma OrderIndependent(tiles: seq<Bytes>, order: seq<nat>) returns (f: nat)
    requires Tiling(Sizes(tiles)) && forall k :: 0 <= k < |order| ==> order[k] < |tiles|
    ensures f <= |tiles| && f !in order && forall i :: 0 <= i < f ==> i in order
    ensures FeedAll(tiles, order).absorbed == Concat(tiles[..f])
    ensures FeedAll(tiles, order).nextOffset == Offset(Sizes(tiles), f)
    ensures (forall i :: 0 <= i < |tiles| ==> i in order) ==>
              FeedAll(tiles, order) == HasherState(Concat(tiles), Offset(Sizes(tiles), |tiles|), map[])
  {
    FeedAllSettles(tiles, order);
    var (s, fed) := (FeedAll(tiles, order), Select(tiles, order));
    f :| f !in fed && HashedTo(s, Sizes(tiles), fed, f);
    forall i | 0 <= i < f ensures i in order {
      assert i in fed;
    }
    JoinedIsConcat(tiles, fed, f);
    assert f == |tiles| ==> tiles[..f] == tiles && s.pending == map[];
  }
}
