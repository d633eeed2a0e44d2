/** `src/sink.rs`: the staging area verified bytes land in, and the one proven-promotion path. */
module Sinks {
  import opened Basics

  /** What a staging area can hold: its length is a 64-bit number. */
  type Staging = b: Bytes | |b| <= U64_MAX

  /** A sink with the reference (in-memory) semantics, exposed to an arbitrary environment: before operation
      number `t` the staged bytes may be replaced by `tamper(t, ..)`, and operation `t` fails if `faults(t)`. A sink
      that commits whole may have `truncate` succeed without shortening anything (`shrinks` false). */
  class Sink {
    const readBack: bool
    const shrinks: bool
    const faults: nat -> bool
    const tamper: (nat, Staging) -> Staging
    var buf: Staging
    var finalized: bool
    var ops: nat

    constructor (readBack: bool, shrinks: bool, faults: nat -> bool, tamper: (nat, Staging) -> Staging,
                 staged: Staging)
      ensures this.readBack == readBack && this.shrinks == shrinks && this.faults == faults && this.tamper == tamper
      ensures buf == staged && !finalized && ops == 0
    {
      this.readBack, this.shrinks, this.faults, this.tamper := readBack, shrinks, faults, tamper;
      buf, finalized, ops := staged, false, 0;
    }

    /** No one else writes this staging area, and its length can be told: it can be shortened, or no read of it
        fails without cause. */
    ghost predicate Undisturbed() {
      (forall t: nat, b: Staging :: tamper(t, b) == b) && (shrinks || forall t: nat :: !faults(t))
    }

    /** Undisturbed, readable, able to shrink, and no operation on it fails. */
    ghost predicate Works() {
      Undisturbed() && readBack && shrinks && forall t: nat :: !faults(t)
    }

    method WriteAt(offset: nat, data: Bytes) returns (ok: bool)
      modifies this
      ensures ok <==> !faults(old(ops)) && offset + |data| <= U64_MAX
      ensures var seen := tamper(old(ops), old(buf)); buf == if ok then Splice(seen, offset, data) else seen
      ensures finalized == old(finalized)
    {
      ok := !faults(ops) && offset + |data| <= U64_MAX;
      buf := tamper(ops, buf);
      if ok {
        buf := Splice(buf, offset, data);
      }
      ops := ops + 1;
    }

    method ReadAt(offset: nat, len: nat) returns (r: Option<Bytes>)
      modifies this
      ensures buf == tamper(old(ops), old(buf)) && finalized == old(finalized)
      ensures r.Some? <==> readBack && !faults(old(ops)) && offset + len <= Min(|buf|, U64_MAX)
      ensures r.Some? ==> r.value == buf[offset..offset + len]
    {
      buf := tamper(ops, buf);
      r := None;
      if readBack && !faults(ops) && offset + len <= Min(|buf|, U64_MAX) {
        r := Some(buf[offset..offset + len]);
      }
      ops := ops + 1;
    }

    /** Only ever shrinks. */
    method Truncate(len: nat) returns (ok: bool)
      modifies this
      ensures ok <==> !faults(old(ops))
      ensures var seen := tamper(old(ops), old(buf)); buf == if ok && shrinks && len < |seen| then seen[..len] else seen
      ensures finalized == old(finalized)
    {
      ok := !faults(ops);
      buf := tamper(ops, buf);
      if ok && shrinks && len < |buf| {
        buf := buf[..len];
      }
      ops := ops + 1;
    }

    method Finalize() returns (ok: bool)
      modifies this
      ensures ok <==> !faults(old(ops))
      ensures buf == tamper(old(ops), old(buf)) && finalized == (old(finalized) || ok)
    {
      ok := !faults(ops);
      buf := tamper(ops, buf);
      finalized := finalized || ok;
      ops := ops + 1;
    }

    /** `promote_verified`: shorten, prove the staged length from both sides, and only then finalize. */
    method PromoteVerified(verifiedLen: nat) returns (r: Result<(), DownloadError>)
      requires verifiedLen <= U64_MAX
      modifies this
      ensures r.Ok? ==> finalized
      ensures r.Err? ==> finalized == old(finalized)
      ensures Undisturbed() && r.Ok? ==> |old(buf)| >= verifiedLen && buf == old(buf)[..verifiedLen]
      ensures Works() ==> (r.Ok? <==> |old(buf)| >= verifiedLen)
      ensures Undisturbed() && readBack && !shrinks ==> (r.Ok? <==> |old(buf)| == verifiedLen)
    {
      var shortened := Truncate(verifiedLen);
      if !shortened { return Err(DownloadError.Sink); }
      if !readBack { return Err(Verify); }
      if verifiedLen > 0 {
        var last := ReadAt(verifiedLen - 1, 1);
        if last.None? { return Err(Verify); }
      }
      var past := ReadAt(verifiedLen, 1);
      if past.Some? { return Err(Verify); }
      var done := Finalize();
      if !done { return Err(DownloadError.Sink); }
      return Ok(());
    }
  }
}
