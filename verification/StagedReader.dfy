/** `StagedModuleReader` of `src/module.rs`: the bounded, chunk-re-verifying window the anchor gate reads through. */
module StagedReader {
  import opened Basics
  import opened ModulePlan
  import opened Sinks

  /** How many of the ascending `offsets` are at most `at`. */
  function PartitionPoint(offsets: seq<nat>, at: nat, from: nat): (k: nat)
    requires from <= |offsets|
    ensures from <= k <= |offsets|
    ensures forall i :: from <= i < k ==> offsets[i] <= at
    ensures k < |offsets| ==> offsets[k] > at
    decreases |offsets| - from
  {
    if from < |offsets| && offsets[from] <= at then PartitionPoint(offsets, at, from + 1) else from
  }

  /** Some fact makes what is read back be `blob`'s own bytes: either its chunks carry the declared hashes and
      SHA-256 does not collide, or nobody disturbs a staging area that starts with `blob`. */
  ghost predicate Vouched(sha: HashFunction, sink: Sink, plan: ChunkPlan, hashes: seq<string>, blob: Bytes)
    requires plan.Valid() && |hashes| == |plan.chunkLens|
    reads sink
  {
    && |blob| == plan.totalSize
    && ((Injective(sha) && Attributed(sha, plan.chunkLens, hashes, blob, |plan.chunkLens|))
        || (sink.Undisturbed() && plan.totalSize <= |sink.buf| && sink.buf[..plan.totalSize] == blob))
  }

  /** The staging area holds every chunk, correctly hashed. */
  ghost predicate Staged(sha: HashFunction, sink: Sink, plan: ChunkPlan, hashes: seq<string>)
    requires plan.Valid()
    reads sink
  {
    Attributed(sha, plan.chunkLens, hashes, sink.buf, |plan.chunkLens|)
  }

  /** Reads chunk `index` back and re-attributes it. */
  method VerifiedChunk(sha: HashFunction, sink: Sink, plan: ChunkPlan, hashes: seq<string>, index: nat,
                       ghost blob: Bytes)
    returns (r: Option<Bytes>)
    requires plan.Valid() && index < |plan.chunkLens| == |hashes|
    modifies sink
    ensures sink.finalized == old(sink.finalized)
    ensures sink.Undisturbed() ==> sink.buf == old(sink.buf)
    ensures r.Some? ==> |r.value| == plan.chunkLens[index] && sha(r.value) == hashes[index]
    ensures r.Some? && old(Vouched(sha, sink, plan, hashes, blob)) ==>
              Offset(plan.chunkLens, index + 1) <= |blob| && r.value == ChunkOf(plan.chunkLens, blob, index)
    ensures sink.Works() && old(Staged(sha, sink, plan, hashes)) ==> r.Some?
  {
    var (offset, len) := (plan.offsets[index], plan.chunkLens[index]);
    ghost var lens := plan.chunkLens;
    OffsetStep(lens, index);
    OffsetMonotone(lens, index + 1, |lens|);
    ghost var vouched := Vouched(sha, sink, plan, hashes, blob);
    ghost var staged := sink.buf;
    assert Staged(sha, sink, plan, hashes) ==> ChunkMatches(sha, lens, hashes, staged, index);
    assert vouched && Attributed(sha, lens, hashes, blob, |lens|) ==> ChunkMatches(sha, lens, hashes, blob, index);
    hide Attributed, Offset;
    r := sink.ReadAt(offset, len);
    if r.Some? && sha(r.value) != hashes[index] {
      r := None;
    }
    if r.Some? && vouched && sink.Undisturbed() && plan.totalSize <= |staged| && staged[..plan.totalSize] == blob {
      SubSlice(staged, blob, offset, offset + len, plan.totalSize);
    }
  }

  /** The last chunk starting at or before `offset`. */
  method FirstChunk(plan: ChunkPlan, offset: nat) returns (index: nat)
    requires plan.Valid() && offset < plan.totalSize
    ensures index < |plan.chunkLens|
    ensures Offset(plan.chunkLens, index) <= offset < Offset(plan.chunkLens, index + 1)
  {
    assert plan.offsets[0] == 0;
    index := PartitionPoint(plan.offsets, offset, 0) - 1;
    assert index + 1 < |plan.offsets| ==> plan.offsets[index + 1] > offset;
  }

  lemma SliceOfSlice(s: Bytes, i: nat, j: nat, a: nat, b: nat)
    requires i <= j <= |s| && a <= b <= j - i
    ensures s[i..j][a..b] == s[i + a..i + b]
  {
    forall k | 0 <= k < b - a ensures s[i..j][a..b][k] == s[i + a..i + b][k] {
      assert s[i..j][a + k] == s[i + (a + k)];
    }
  }

  /** Re-verifies chunk `index` and returns its bytes from position `at` of the module on, at most `limit` of them. */
  method ChunkFrom(sha: HashFunction, sink: Sink, plan: ChunkPlan, hashes: seq<string>, index: nat, at: nat,
                   limit: nat, ghost blob: Bytes)
    returns (r: Option<Bytes>)
    requires plan.Valid() && index < |plan.chunkLens| == |hashes|
    requires Offset(plan.chunkLens, index) <= at <= Offset(plan.chunkLens, index + 1)
    modifies sink
    ensures sink.finalized == old(sink.finalized)
    ensures sink.Undisturbed() ==> sink.buf == old(sink.buf)
    ensures r.Some? ==> |r.value| == Min(Offset(plan.chunkLens, index + 1) - at, limit)
    ensures r.Some? && old(Vouched(sha, sink, plan, hashes, blob)) ==>
              at + |r.value| <= |blob| && r.value == blob[at..at + |r.value|]
    ensures sink.Works() && old(Staged(sha, sink, plan, hashes)) ==> r.Some?
  {
    var chunk := VerifiedChunk(sha, sink, plan, hashes, index, blob);
    if chunk.None? {
      return None;
    }
    OffsetStep(plan.chunkLens, index);
    var start := at - plan.offsets[index];
    var take := Min(|chunk.value| - start, limit);
    if old(Vouched(sha, sink, plan, hashes, blob)) {
      SliceOfSlice(blob, plan.offsets[index], plan.offsets[index] + |chunk.value|, start, start + take);
    }
    return Some(chunk.value[start..start + take]);
  }

  /** `read_at`: exactly the requested window of the module, or nothing. */
  method ReadStaged(sha: HashFunction, sink: Sink, plan: ChunkPlan, hashes: seq<string>, offset: nat, len: nat,
                    ghost blob: Bytes)
    returns (r: Option<Bytes>)
    requires plan.Valid() && |plan.chunkLens| == |hashes|
    modifies sink
    ensures sink.finalized == old(sink.finalized)
    ensures sink.Undisturbed() ==> sink.buf == old(sink.buf)
    ensures len > 0 && offset + len > plan.totalSize ==> r.None?
    ensures r.Some? ==> |r.value| == len
    ensures r.Some? && len > 0 && old(Vouched(sha, sink, plan, hashes, blob)) ==>
              offset + len <= |blob| && r.value == blob[offset..offset + len]
    ensures sink.Works() && old(Staged(sha, sink, plan, hashes)) && offset + len <= plan.totalSize ==> r.Some?
  {
    if len == 0 {
      return Some([]);
    }
    if offset + len > Min(plan.totalSize, U64_MAX) {
      return None;
    }
    var index := FirstChunk(plan, offset);
    var out: Bytes := [];
    hide Attributed, Injective, Offset;
    while |out| < len
      invariant |out| <= len && index <= |plan.chunkLens|
      invariant |out| < len ==>
                  && index < |plan.chunkLens|
                  && Offset(plan.chunkLens, index) <= offset + |out| <= Offset(plan.chunkLens, index + 1)
      invariant sink.finalized == old(sink.finalized)
      invariant sink.Undisturbed() ==> sink.buf == old(sink.buf)
      invariant old(Vouched(sha, sink, plan, hashes, blob)) ==> out == blob[offset..offset + |out|]
      decreases |plan.chunkLens| - index
    {
      if index >= |plan.chunkLens| {
        assert false; // the plan covers every window inside the module
      }
      if plan.chunkLens[index] > 0 {
        var part := ChunkFrom(sha, sink, plan, hashes, index, offset + |out|, len - |out|, blob);
        if part.None? {
          return None;
        }
        out := out + part.value;
      }
      OffsetStep(plan.chunkLens, index);
      index := index + 1;
      if index < |plan.chunkLens| {
        OffsetStep(plan.chunkLens, index);
      }
    }
    return Some(out);
  }
}
