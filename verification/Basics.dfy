/** Vocabulary shared by every component: bytes, digests, wire integers, cumulative offsets and errors. */
module Basics {
  const U64_MAX: nat := 0xFFFF_FFFF_FFFF_FFFF

  type Byte = b: int | 0 <= b < 256
  type Bytes = seq<Byte>

  /** A holder's `peer_id` as it arrives off the wire. */
  type Peer = string

  /** SHA-256 in hex is an uninterpreted function; collision freedom is assumed only where a property says so. */
  type HashFunction = Bytes -> string

  ghost predicate Injective(sha: HashFunction) {
    forall a: Bytes, b: Bytes :: sha(a) == sha(b) ==> a == b
  }

  datatype Option<+T> = None | Some(value: T)

  datatype Result<+T, +E> = Ok(value: T) | Err(error: E)

  /** The error classes of `src/error.rs`, without their text. */
  datatype DownloadError =
    | Transport | Timeout | Verify | NoProviders | NotFound | MetadataProbeFailed
    | PagedPrologueUnsupported | Cancelled | State | Sink | NotDownloadable
  {
    /** Whether another holder may be tried instead of failing the whole download. */
    predicate IsRecoverable() {
      Transport? || Verify? || Timeout? || PagedPrologueUnsupported?
    }
  }

  function Min(a: nat, b: nat): nat { if a <= b then a else b }

  function Max(a: nat, b: nat): nat { if a <= b then b else a }

  /** The byte offset at which entry `i` of `lens` starts; `Offset(lens, |lens|)` is the total length. */
  function Offset(lens: seq<nat>, i: nat): nat
    requires i <= |lens|
  {
    if i == 0 then 0 else Offset(lens, i - 1) + lens[i - 1]
  }

  lemma OffsetStep(lens: seq<nat>, i: nat)
    requires i < |lens|
    ensures Offset(lens, i + 1) == Offset(lens, i) + lens[i]
  {
  }

  lemma {:induction false} OffsetMonotone(lens: seq<nat>, i: nat, j: nat)
    requires i <= j <= |lens|
    ensures Offset(lens, i) <= Offset(lens, j)
    decreases j - i
  {
    if i < j {
      OffsetMonotone(lens, i, j - 1);
    }
  }

  function Zeros(n: nat): (z: Bytes)
    ensures |z| == n && forall k :: 0 <= k < n ==> z[k] == 0
  {
    seq(n, _ => 0)
  }

  /** `buf` grown with zero bytes to length `n`, if it is shorter. */
  function ZeroExtend(buf: Bytes, n: nat): (r: Bytes)
    ensures |r| == Max(|buf|, n)
    ensures r[..|buf|] == buf
  {
    if |buf| < n then buf + Zeros(n - |buf|) else buf
  }

  /** A positioned write: zero-extends a gap, overwrites, and never shortens. */
  function Splice(buf: Bytes, at: nat, data: Bytes): (r: Bytes)
    ensures |r| == Max(|buf|, at + |data|)
    ensures r[at..at + |data|] == data
    ensures forall k :: 0 <= k < |buf| && !(at <= k < at + |data|) ==> r[k] == buf[k]
    ensures forall k :: |buf| <= k < at ==> r[k] == 0
  {
    var big := ZeroExtend(buf, at + |data|);
    assert forall k :: 0 <= k < |buf| ==> big[k] == big[..|buf|][k];
    big[..at] + data + big[at + |data|..]
  }
}
