/** The module descriptor of `src/module.rs` and the chunk plan validated from it. */
module ModulePlan {
  import opened Basics

  const MAX_MODULE_CHUNK_COUNT: nat := 1024 * 1024

  datatype ModuleInfo = ModuleInfo(
    totalSize: nat, moduleHash: string, chunkLens: seq<nat>, chunkHashes: seq<string>)

  /** Why a pull against one descriptor failed. */
  datatype PullFailure =
    | BadDescriptor(error: DownloadError)
    | UnsatisfiableDescriptor(error: DownloadError)
    | Terminal(error: DownloadError)

  datatype ChunkPlan = ChunkPlan(totalSize: nat, chunkLens: seq<nat>, offsets: seq<nat>) {
    ghost predicate Valid() {
      && |offsets| == |chunkLens| > 0
      && Offset(chunkLens, |chunkLens|) == totalSize <= U64_MAX
      && forall i :: 0 <= i < |offsets| ==> offsets[i] == Offset(chunkLens, i)
    }

    /** Whose plan this is. */
    ghost predicate Of(info: ModuleInfo) {
      && Valid() && totalSize == info.totalSize && chunkLens == info.chunkLens
      && |info.chunkHashes| == |chunkLens|
    }
  }

  /** A descriptor that survives every structural check. */
  ghost predicate WellFormed(info: ModuleInfo, maxModuleSize: nat) {
    && info.totalSize <= maxModuleSize
    && 0 < |info.chunkLens| <= MAX_MODULE_CHUNK_COUNT
    && |info.chunkLens| == |info.chunkHashes|
    && Offset(info.chunkLens, |info.chunkLens|) == info.totalSize
  }

  /** `ChunkPlan::from_info`: total over hostile descriptors. Running out of local memory blames nobody. */
  method FromInfo(info: ModuleInfo, maxModuleSize: nat, canAllocate: bool)
    returns (r: Result<ChunkPlan, PullFailure>)
    requires maxModuleSize <= U64_MAX
    ensures r.Ok? <==> WellFormed(info, maxModuleSize) && canAllocate
    ensures r.Err? ==> r.error == if WellFormed(info, maxModuleSize) then UnsatisfiableDescriptor(DownloadError.Sink)
                                  else BadDescriptor(DownloadError.Verify)
    ensures r.Ok? ==> r.value.Of(info)
  {
    var falseDescriptor := Err(BadDescriptor(DownloadError.Verify));
    var lens := info.chunkLens;
    if info.totalSize > maxModuleSize || lens == [] || |lens| > MAX_MODULE_CHUNK_COUNT
       || |lens| != |info.chunkHashes|
    {
      return falseDescriptor;
    }
    var sum := CheckedSum(lens);
    if sum != Some(info.totalSize) {
      return falseDescriptor;
    }
    if !canAllocate {
      return Err(UnsatisfiableDescriptor(DownloadError.Sink));
    }
    var offsets, acc := [], 0;
    for i := 0 to |lens|
      invariant |offsets| == i && acc == Offset(lens, i)
      invariant forall k :: 0 <= k < i ==> offsets[k] == Offset(lens, k)
    {
      offsets := offsets + [acc];
      OffsetMonotone(lens, i + 1, |lens|);
      if acc + lens[i] > U64_MAX {
        assert false; // the checked sum above already excluded it
      }
      acc := acc + lens[i];
    }
    return Ok(ChunkPlan(info.totalSize, lens, offsets));
  }

  /** A sum that reports overflow instead of wrapping. */
  method CheckedSum(lens: seq<nat>) returns (sum: Option<nat>)
    ensures sum == if Offset(lens, |lens|) <= U64_MAX then Some(Offset(lens, |lens|)) else None
  {
    var acc := 0;
    for i := 0 to |lens|
      invariant acc == Offset(lens, i) <= U64_MAX
    {
      OffsetMonotone(lens, i + 1, |lens|);
      if acc + lens[i] > U64_MAX {
        return None;
      }
      acc := acc + lens[i];
    }
    return Some(acc);
  }

  /** The bytes of chunk `i` of a blob laid out by `lens`. */
  function ChunkOf(lens: seq<nat>, blob: Bytes, i: nat): Bytes
    requires i < |lens| && Offset(lens, i + 1) <= |blob|
  {
    blob[Offset(lens, i)..Offset(lens, i + 1)]
  }

  /** The first `n` chunks of `blob` carry the declared hashes. */
  ghost predicate Attributed(sha: HashFunction, lens: seq<nat>, hashes: seq<string>, blob: Bytes, n: nat) {
    && n <= |lens| == |hashes| && Offset(lens, n) <= |blob|
    && forall i :: 0 <= i < n ==> ChunkMatches(sha, lens, hashes, blob, i)
  }

  ghost predicate ChunkMatches(sha: HashFunction, lens: seq<nat>, hashes: seq<string>, blob: Bytes, i: nat)
    requires i < |lens| == |hashes|
  {
    Offset(lens, i + 1) <= |blob| && sha(ChunkOf(lens, blob, i)) == hashes[i]
  }

  /** `info` is a truthful descriptor of `blob`, under whatever chunking its holder chose. */
  ghost predicate Truthful(sha: HashFunction, info: ModuleInfo, blob: Bytes) {
    && |info.chunkLens| == |info.chunkHashes|
    && Offset(info.chunkLens, |info.chunkLens|) == info.totalSize == |blob|
    && Attributed(sha, info.chunkLens, info.chunkHashes, blob, |info.chunkLens|)
    && info.moduleHash == sha(blob)
  }

  /** Truthful about a non-empty module within the configured limits. */
  ghost predicate Acceptable(sha: HashFunction, maxModuleSize: nat, info: ModuleInfo, genuine: Bytes) {
    && Truthful(sha, info, genuine)
    && 0 < |genuine| <= maxModuleSize && |info.chunkLens| <= MAX_MODULE_CHUNK_COUNT
  }

  /** A truthful descriptor is refused as false only for an empty module or beyond the limits. */
  lemma AcceptableIsWellFormed(sha: HashFunction, maxModuleSize: nat, info: ModuleInfo, genuine: Bytes)
    requires Truthful(sha, info, genuine)
    ensures Acceptable(sha, maxModuleSize, info, genuine) ==> WellFormed(info, maxModuleSize)
    ensures WellFormed(info, maxModuleSize) && genuine != [] ==> Acceptable(sha, maxModuleSize, info, genuine)
    ensures genuine == [] && info.chunkLens == [] ==> !WellFormed(info, maxModuleSize)
  {
  }

  /** Attributed chunks of a truthful descriptor's layout are the blob's own bytes. */
  lemma {:induction false} AttributedIsGenuine(sha: HashFunction, lens: seq<nat>, hashes: seq<string>,
                                               a: Bytes, b: Bytes, n: nat)
    requires Injective(sha)
    requires Attributed(sha, lens, hashes, a, n) && Attributed(sha, lens, hashes, b, n)
    ensures a[..Offset(lens, n)] == b[..Offset(lens, n)]
  {
    if n > 0 {
      var (start, end) := (Offset(lens, n - 1), Offset(lens, n));
      AttributedIsGenuine(sha, lens, hashes, a, b, n - 1);
      SameChunk(sha, lens, hashes, a, b, n - 1);
      assert a[..end] == a[..start] + a[start..end] && b[..end] == b[..start] + b[start..end];
    }
  }

  lemma SameChunk(sha: HashFunction, lens: seq<nat>, hashes: seq<string>, a: Bytes, b: Bytes, i: nat)
    requires Injective(sha) && i < |lens| == |hashes|
    requires ChunkMatches(sha, lens, hashes, a, i) && ChunkMatches(sha, lens, hashes, b, i)
    ensures ChunkOf(lens, a, i) == ChunkOf(lens, b, i)
  {
  }

  /** Attribution of a prefix only looks at that prefix. */
  lemma AttributedPrefix(sha: HashFunction, lens: seq<nat>, hashes: seq<string>, a: Bytes, b: Bytes, n: nat)
    requires Attributed(sha, lens, hashes, a, n) && Offset(lens, n) <= |b|
    requires a[..Offset(lens, n)] == b[..Offset(lens, n)]
    ensures Attributed(sha, lens, hashes, b, n)
  {
    forall i | 0 <= i < n ensures ChunkMatches(sha, lens, hashes, b, i) {
      assert ChunkMatches(sha, lens, hashes, a, i);
      OffsetMonotone(lens, i + 1, n);
      SubSlice(a, b, Offset(lens, i), Offset(lens, i + 1), Offset(lens, n));
    }
  }

  lemma SubSlice(a: Bytes, b: Bytes, i: nat, j: nat, n: nat)
    requires i <= j <= n <= |a| && n <= |b| && a[..n] == b[..n]
    ensures a[i..j] == b[i..j]
  {
    assert a[i..j] == a[..n][i..j] && b[i..j] == b[..n][i..j];
  }

  /** One more attributed chunk. */
  lemma AttributedSnoc(sha: HashFunction, lens: seq<nat>, hashes: seq<string>, blob: Bytes, chunk: Bytes, n: nat)
    requires Attributed(sha, lens, hashes, blob, n) && n < |lens| && |blob| == Offset(lens, n)
    requires |chunk| == lens[n] && sha(chunk) == hashes[n]
    ensures Attributed(sha, lens, hashes, blob + chunk, n + 1)
  {
    var more := blob + chunk;
    assert more[..|blob|] == blob[..|blob|];
    AttributedPrefix(sha, lens, hashes, blob, more, n);
    assert ChunkOf(lens, more, n) == chunk;
    assert ChunkMatches(sha, lens, hashes, more, n);
  }
}
