/** `SourceTracker` of `src/source.rs` and the scheduler's forward scan for the next usable holder.
    Instants and durations are whole nanoseconds. */
module Backoff {
  import opened Basics

  const U32_MAX: nat := 0xFFFF_FFFF
  const MILLISECOND: nat := 1_000_000

  datatype SourceHealth = SourceHealth(failures: nat, served: nat, backoffUntil: Option<nat>)

  const HEALTHY := SourceHealth(0, 0, None)

  function Pow2(n: nat): nat { if n == 0 then 1 else 2 * Pow2(n - 1) }

  /** The backoff after `failures` consecutive failures: doubles from `base`, at most 16 times, capped at `max`. */
  function BackoffFor(base: nat, max: nat, failures: nat): nat {
    Min(base * Pow2(Min(if failures == 0 then 0 else failures - 1, 16)), max)
  }

  function Succeeded(h: SourceHealth): SourceHealth {
    SourceHealth(0, h.served + 1, None)
  }

  function Failed(h: SourceHealth, base: nat, max: nat, now: nat): SourceHealth {
    var failures := Min(h.failures + 1, U32_MAX);
    SourceHealth(failures, h.served, Some(now + BackoffFor(base, max, failures)))
  }

  class SourceTracker {
    const base: nat
    const max: nat
    var health: map<Peer, SourceHealth>
    ghost var latest: nat // the last instant a failure was recorded at; instants never step back

    constructor (base: nat, max: nat)
      ensures this.base == base && this.max == max && health == map[] && latest == 0 && Valid()
    {
      this.base, this.max, health, latest := base, max, map[], 0;
    }

    /** No backoff outlasts the cap. */
    ghost predicate Valid()
      reads this
    {
      forall p :: p in health && health[p].backoffUntil.Some? ==> health[p].backoffUntil.value <= latest + max
    }

    function Health(peer: Peer): SourceHealth
      reads this`health
    {
      if peer in health then health[peer] else HEALTHY
    }

    predicate IsAvailable(peer: Peer, now: nat)
      reads this`health
    {
      Health(peer).backoffUntil.None? || now >= Health(peer).backoffUntil.value
    }

    method RecordSuccess(peer: Peer)
      requires Valid()
      modifies this`health
      ensures Valid() && health == old(health)[peer := Succeeded(old(Health(peer)))]
    {
      health := health[peer := Succeeded(Health(peer))];
    }

    method RecordFailure(peer: Peer, now: nat)
      requires Valid() && latest <= now
      modifies this
      ensures Valid() && latest == now
      ensures health == old(health)[peer := Failed(old(Health(peer)), base, max, now)]
    {
      health, latest := health[peer := Failed(Health(peer), base, max, now)], now;
    }

    function Step(): nat { Max(base, MILLISECOND) }

    /** Scans forward from `now`; the instant it returns is one at which `peer` is usable, less than one step
        after the backoff ends. Running past the limit is impossible. */
    method NextAvailableAt(peer: Peer, now: nat) returns (t: nat)
      requires Valid() && latest <= now
      ensures IsAvailable(peer, t) && now <= t
      ensures !IsAvailable(peer, now) ==> t < Health(peer).backoffUntil.value + Step()
    {
      var limit := now + max + Step();
      t := now;
      while t <= limit
        invariant now <= t
        invariant !IsAvailable(peer, now) ==> t < Health(peer).backoffUntil.value + Step()
        invariant IsAvailable(peer, now) ==> t == now
        decreases limit + 1 - t
      {
        if IsAvailable(peer, t) {
          return;
        }
        t := t + Step();
      }
      assert false; // the fallback to `limit` is never taken
    }

    /** When the first backed-off provider becomes usable, `None` when none is backed off. */
    method EarliestBackoff(providers: seq<Peer>, now: nat) returns (r: Option<nat>)
      requires Valid() && latest <= now
      ensures r.None? <==> forall p :: p in providers ==> IsAvailable(p, now)
      ensures r.Some? ==> exists p :: p in providers && !IsAvailable(p, now) && IsAvailable(p, r.value)
      ensures r.Some? ==> forall p :: p in providers && !IsAvailable(p, now) ==>
                                        r.value < Health(p).backoffUntil.value + Step()
    {
      r := None;
      for i := 0 to |providers|
        invariant r.None? <==> forall p :: p in providers[..i] ==> IsAvailable(p, now)
        invariant r.Some? ==> exists p :: p in providers && !IsAvailable(p, now) && IsAvailable(p, r.value)
        invariant r.Some? ==> forall p :: p in providers[..i] && !IsAvailable(p, now) ==>
                                            r.value < Health(p).backoffUntil.value + Step()
      {
        assert forall p :: p in providers[..i + 1] <==> p in providers[..i] || p == providers[i];
        if !IsAvailable(providers[i], now) {
          var t := NextAvailableAt(providers[i], now);
          r := Some(if r.None? then t else Min(r.value, t));
        }
      }
    }
  }

  // ---- whole histories ----------------------------------------------------------------------------

  datatype Attempt = Success | Failure(at: nat)

  /** A holder's record once `history` happened to one that began as `start`. */
  function After(start: SourceHealth, history: seq<Attempt>, base: nat, max: nat): SourceHealth {
    if history == [] then start
    else
      var before := After(start, history[..|history| - 1], base, max);
      match history[|history| - 1]
      case Success => Succeeded(before)
      case Failure(at) => Failed(before, base, max, at)
  }

  /** How many failures the history ends with. */
  function Streak(history: seq<Attempt>): nat {
    if history == [] || history[|history| - 1].Success? then 0 else 1 + Streak(history[..|history| - 1])
  }

  /** A holder's backoff depends only on its current run of failures and when the last one happened. */
  lemma {:induction false} BackoffFollowsStreak(history: seq<Attempt>, base: nat, max: nat)
    ensures After(HEALTHY, history, base, max).failures == Min(Streak(history), U32_MAX)
    ensures After(HEALTHY, history, base, max).backoffUntil ==
              if Streak(history) == 0 then None
              else Some(history[|history| - 1].at + BackoffFor(base, max, Streak(history)))
  {
    if history != [] {
      BackoffFollowsStreak(history[..|history| - 1], base, max);
    }
  }

  /** The backoff starts at the base and doubles with each further failure up to the seventeenth, but for the cap. */
  lemma BackoffDoubles(base: nat, max: nat, k: nat)
    ensures BackoffFor(base, max, 1) == Min(base, max)
    ensures 1 <= k <= 16 ==> BackoffFor(base, max, k + 1) == Min(2 * BackoffFor(base, max, k), max)
    ensures k >= 17 ==> BackoffFor(base, max, k + 1) == BackoffFor(base, max, k)
  {
    assert Pow2(0) == 1;
    if 1 <= k <= 16 {
      Twice(base, k - 1);
    }
    hide Pow2;
  }

  lemma Twice(base: nat, k: nat)
    ensures base * Pow2(k + 1) == 2 * (base * Pow2(k))
  {
    var p := Pow2(k);
    assert Pow2(k + 1) == 2 * p;
    hide Pow2;
    assert base * (2 * p) == 2 * (base * p);
  }

  lemma {:induction false} Pow2Monotone(m: nat, n: nat)
    requires m <= n
    ensures 1 <= Pow2(m) <= Pow2(n)
  {
    if m < n {
      Pow2Monotone(m, n - 1);
    } else if m > 0 {
      Pow2Monotone(m - 1, m - 1);
    }
  }

  /** Another failure in a row never shortens the backoff, and no backoff exceeds the cap. */
  lemma BackoffGrowsToCap(base: nat, max: nat, k: nat, k': nat)
    requires k <= k'
    ensures BackoffFor(base, max, k) <= BackoffFor(base, max, k') <= max
  {
    var (s, s') := (Min(if k == 0 then 0 else k - 1, 16), Min(if k' == 0 then 0 else k' - 1, 16));
    Pow2Monotone(s, s');
    ScaleMonotone(base, Pow2(s), Pow2(s'));
  }

  lemma ScaleMonotone(c: nat, a: nat, b: nat)
    requires a <= b
    ensures c * a <= c * b
  {
  }
}
