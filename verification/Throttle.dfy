/** `src/throttle.rs`: the first-come-first-serve token-bucket limiter, over exact arithmetic. */
module Throttle {
  datatype Admission = Admission(time: real, bytes: nat)

  /** Bytes of the first `k` admissions. */
  function Upto(log: seq<Admission>, k: nat): nat
    requires k <= |log|
  {
    if k == 0 then 0 else Upto(log, k - 1) + log[k - 1].bytes
  }

  lemma {:induction false} UptoPrefix(log: seq<Admission>, a: Admission, k: nat)
    requires k <= |log|
    ensures Upto(log + [a], k) == Upto(log, k)
  {
    if k > 0 {
      UptoPrefix(log, a, k - 1);
    }
  }

  function RMin(a: real, b: real): real { if a <= b then a else b }

  function RMax(a: real, b: real): real { if a <= b then b else a }

  ghost predicate Sorted(log: seq<Admission>) {
    forall i, j :: 0 <= i <= j < |log| ==> log[i].time <= log[j].time
  }

  /** Admissions `i .. j` inclusive exceed `rate` times their duration by at most one burst or the last request. */
  ghost predicate WithinRate(log: seq<Admission>, rate: real, burst: real, i: nat, j: nat)
    requires i <= j < |log|
  {
    (Upto(log, j + 1) - Upto(log, i)) as real
      <= rate * (log[j].time - log[i].time) + RMax(burst, log[j].bytes as real)
  }

  ghost predicate RateBound(log: seq<Admission>, rate: real, burst: real) {
    forall i, j :: 0 <= i <= j < |log| ==> WithinRate(log, rate, burst, i, j)
  }

  lemma Distribute(rate: real, a: real, b: real, c: real)
    ensures rate * (b - a) + rate * (c - b) == rate * (c - a)
  {
  }

  lemma ScaleMonotone(rate: real, a: real, b: real)
    requires rate >= 0.0 && a <= b
    ensures rate * a <= rate * b
  {
  }

  lemma ScaleStrictly(rate: real, a: real, b: real)
    requires rate > 0.0 && a < b
    ensures rate * a < rate * b
  {
  }

  lemma Recover(x: real, rate: real, dt: real)
    requires rate > 0.0 && dt >= x / rate
    ensures rate * dt >= x
  {
    assert rate * (x / rate) == x;
    ScaleMonotone(rate, x / rate, dt);
  }

  /** Spending so far is paid for: since admission `i`, refills plus one burst cover what was admitted. */
  ghost predicate Paid(log: seq<Admission>, rate: real, burst: real, tokens: real, at: real, i: nat)
    requires i < |log|
  {
    tokens + (Upto(log, |log|) - Upto(log, i)) as real <= burst + rate * (at - log[i].time)
  }

  /** What a bucket of rate `rate` (and burst `rate`) keeps about its admissions. */
  ghost predicate Solvent(log: seq<Admission>, rate: real, tokens: real, at: real) {
    && tokens <= rate && Sorted(log)
    && (forall i :: 0 <= i < |log| ==> log[i].time <= at && Paid(log, rate, rate, tokens, at, i))
    && RateBound(log, rate, rate)
  }

  lemma PaidLater(log: seq<Admission>, rate: real, burst: real, tokens: real, at: real, now: real, i: nat)
    requires i < |log| && Paid(log, rate, burst, tokens, at, i)
    ensures Paid(log, rate, burst, tokens + rate * (now - at), now, i)
  {
    Distribute(rate, log[i].time, at, now);
  }

  /** Tokens after refilling for `dt` seconds, never more than a full bucket of `rate`. */
  function TopUp(rate: real, tokens: real, dt: real): real {
    if dt > 0.0 then RMin(tokens + rate * dt, rate) else tokens
  }

  /** Waiting out a shortfall at `rate` makes it up, and waiting longer never hurts. */
  lemma TopUpReaches(rate: real, tokens: real, goal: real, dt: real, wait: real)
    requires rate > 0.0 && tokens <= rate && goal <= rate && dt >= wait
    requires wait == if tokens >= goal then 0.0 else (goal - tokens) / rate
    ensures TopUp(rate, tokens, dt) >= goal
  {
    if tokens < goal {
      Recover(goal - tokens, rate, dt);
      assert dt > 0.0;
    } else if dt > 0.0 {
      assert rate * dt > 0.0;
    }
  }

  /** Before a shortfall is waited out it is not made up. */
  lemma TopUpFalls(rate: real, tokens: real, goal: real, dt: real)
    requires rate > 0.0 && tokens < goal && dt < (goal - tokens) / rate
    ensures TopUp(rate, tokens, dt) < goal
  {
    ScaleStrictly(rate, dt, (goal - tokens) / rate);
    assert rate * ((goal - tokens) / rate) == goal - tokens;
  }

  /** Refilling on the way makes no difference. */
  lemma TopUpTwice(rate: real, tokens: real, a: real, b: real)
    requires rate > 0.0 && tokens <= rate && a >= 0.0 && b >= 0.0
    ensures TopUp(rate, TopUp(rate, tokens, a), b) == TopUp(rate, tokens, a + b)
  {
    assert rate * (a + b) == rate * a + rate * b;
    ScaleMonotone(rate, 0.0, a);
    ScaleMonotone(rate, 0.0, b);
  }

  lemma SolventLater(log: seq<Admission>, rate: real, tokens: real, at: real, now: real)
    requires Solvent(log, rate, tokens, at) && at <= now
    ensures Solvent(log, rate, TopUp(rate, tokens, now - at), now)
  {
    var topped := TopUp(rate, tokens, now - at);
    forall i | 0 <= i < |log| ensures log[i].time <= now && Paid(log, rate, rate, topped, now, i) {
      PaidLater(log, rate, rate, tokens, at, now, i);
    }
  }

  lemma PaidForOne(log: seq<Admission>, rate: real, burst: real, tokens: real, a: Admission, i: nat)
    requires i <= |log| && (i < |log| ==> Paid(log, rate, burst, tokens, a.time, i))
    requires RMin(a.bytes as real, burst) <= tokens <= burst
    ensures Paid(log + [a], rate, burst, tokens - a.bytes as real, a.time, i)
    ensures WithinRate(log + [a], rate, burst, i, |log|)
  {
    UptoPrefix(log, a, i);
    UptoPrefix(log, a, |log|);
  }

  lemma WithinRatePrefix(log: seq<Admission>, rate: real, burst: real, a: Admission, i: nat, j: nat)
    requires i <= j < |log| && WithinRate(log, rate, burst, i, j)
    ensures WithinRate(log + [a], rate, burst, i, j)
  {
    UptoPrefix(log, a, i);
    UptoPrefix(log, a, j + 1);
  }

  /** Admitting a request once its tokens (or a full burst) are there keeps every window within the rate. */
  lemma SolventAfter(log: seq<Admission>, rate: real, tokens: real, a: Admission)
    requires Solvent(log, rate, tokens, a.time) && tokens >= RMin(a.bytes as real, rate)
    ensures Solvent(log + [a], rate, tokens - a.bytes as real, a.time)
  {
    var log' := log + [a];
    forall i | 0 <= i < |log'|
      ensures log'[i].time <= a.time && Paid(log', rate, rate, tokens - a.bytes as real, a.time, i)
    {
      PaidForOne(log, rate, rate, tokens, a, i);
    }
    RateBoundAfter(log, rate, tokens, a);
  }

  lemma RateBoundAfter(log: seq<Admission>, rate: real, tokens: real, a: Admission)
    requires Solvent(log, rate, tokens, a.time) && tokens >= RMin(a.bytes as real, rate)
    ensures RateBound(log + [a], rate, rate)
  {
    hide Paid, WithinRate, Sorted;
    forall i, j | 0 <= i <= j < |log| + 1 ensures WithinRate(log + [a], rate, rate, i, j) {
      if j < |log| {
        WithinRatePrefix(log, rate, rate, a, i, j);
      } else {
        PaidForOne(log, rate, rate, tokens, a, i);
      }
    }
  }

  /** A bucket of at most one second's tokens; a rate of 0 means unlimited. */
  class Bucket {
    const rate: real
    const capacity: real
    var tokens: real
    var lastRefill: real
    ghost var log: seq<Admission>

    constructor (bps: nat, now: real)
      ensures Valid() && tokens == rate == bps as real && lastRefill == now && log == []
    {
      rate, capacity, tokens, lastRefill, log := bps as real, bps as real, bps as real, now, [];
    }

    ghost predicate Valid()
      reads this
    {
      rate == capacity >= 0.0 && (rate > 0.0 ==> Solvent(log, rate, tokens, lastRefill))
    }

    /** The tokens a refill at `now` leaves. */
    function Refilled(now: real): real
      reads this
    {
      TopUp(rate, tokens, now - lastRefill)
    }

    /** A request of `need` bytes can be admitted at `now` without waiting. */
    predicate Ready(need: nat, now: real)
      reads this
    {
      rate <= 0.0 || Refilled(now) >= RMin(need as real, capacity)
    }

    lemma FullReady(need: nat, now: real)
      requires Valid() && tokens == rate && lastRefill <= now
      ensures Ready(need, now)
    {
      ScaleMonotone(rate, 0.0, now - lastRefill);
    }

    method Refill(now: real)
      requires Valid() && lastRefill <= now && rate > 0.0
      modifies this`tokens, this`lastRefill
      ensures Valid() && tokens == old(Refilled(now)) <= capacity && lastRefill == now
    {
      SolventLater(log, rate, tokens, lastRefill, now);
      hide Solvent;
      if now - lastRefill > 0.0 {
        tokens, lastRefill := TopUp(rate, tokens, now - lastRefill), now;
      }
    }

    /** How long until `need` tokens are there; a request above capacity waits only for a full bucket. */
    method WaitFor(need: nat, now: real) returns (wait: real)
      requires Valid() && lastRefill <= now
      modifies this`tokens, this`lastRefill
      ensures Valid() && wait >= 0.0 && lastRefill <= now
      ensures wait == 0.0 <==> old(Ready(need, now))
      ensures wait == 0.0 ==> Ready(need, now)
      ensures rate > 0.0 ==> lastRefill == now
      ensures forall t: real :: t >= now ==> (Ready(need, t) <==> t >= now + wait)
      ensures forall t: real :: t >= now ==> (old(Ready(need, t)) <==> t >= now + wait)
    {
      assert rate > 0.0 ==> tokens <= rate;
      hide Solvent;
      if rate <= 0.0 {
        return 0.0;
      }
      Refill(now);
      var effective := RMin(need as real, capacity);
      if tokens >= effective {
        wait := 0.0;
      } else {
        wait := (effective - tokens) / rate;
      }
      forall t: real | t >= now + wait ensures Ready(need, t) {
        TopUpReaches(rate, tokens, effective, t - now, wait);
      }
      forall t: real | t >= now ensures Refilled(t) == old(Refilled(t)) && Ready(need, t) == old(Ready(need, t)) {
        TopUpTwice(rate, old(tokens), now - old(lastRefill), t - now);
      }
      forall t: real | now <= t < now + wait ensures !Ready(need, t) {
        TopUpFalls(rate, tokens, effective, t - now);
      }
    }

    /** Spends `need` tokens; an oversized request drives the balance negative. */
    method Consume(need: nat, now: real)
      requires Valid() && Ready(need, now) && (rate > 0.0 ==> lastRefill == now)
      modifies this`tokens, this`log
      ensures Valid() && log == old(log) + [Admission(now, need)]
    {
      hide Solvent;
      if rate > 0.0 {
        assert tokens >= RMin(need as real, rate);
        hide RMin, Ready, Refilled;
        SolventAfter(log, rate, tokens, Admission(now, need));
        tokens := tokens - need as real;
      }
      log := log + [Admission(now, need)];
    }
  }

  /** What was due at `due` is decided then, at once or on the late wake-up from one sleep. */
  ghost predicate Due(now: real, due: real, late: nat -> real, decided: real, sleeps: nat) {
    if due == now then decided == now && sleeps == 0 else decided == due + late(0) && sleeps == 1
  }

  /** A global cap and one cap per connection, both of which must admit a request. */
  class FcfsRateLimiter {
    const global: Bucket
    const perConnBps: nat
    var perConn: map<string, Bucket>
    ghost var latest: real // when the last admission was decided; instants never step back

    constructor (globalBps: nat, perConnBps: nat, now: real)
      ensures Valid() && latest == now && global.log == [] && perConn == map[] && fresh(global)
      ensures global.rate == globalBps as real && this.perConnBps == perConnBps
    {
      global := new Bucket(globalBps, now);
      this.perConnBps, perConn, latest := perConnBps, map[], now;
    }

    ghost predicate Valid()
      reads this, global, perConn.Values
    {
      && global.Valid() && global.lastRefill <= latest
      && (forall k :: k in perConn ==>
            && perConn[k] != global && perConn[k].Valid() && perConn[k].lastRefill <= latest
            && perConn[k].rate == perConnBps as real)
      && (forall k, k' :: k in perConn && k' in perConn && k != k' ==> perConn[k] != perConn[k'])
    }

    /** What has been admitted on `key` so far. */
    ghost function Log(key: string): seq<Admission>
      reads this, perConn.Values
    {
      if key in perConn then perConn[key].log else []
    }

    /** Both budgets cover `bytes` at `t`; a connection not seen before has a full one. */
    predicate Covered(key: string, bytes: nat, t: real)
      reads this, global, perConn.Values
    {
      global.Ready(bytes, t) && (key in perConn ==> perConn[key].Ready(bytes, t))
    }

    /** Waits for both budgets and then spends them. The FIFO gate admits one caller at a time, so a call starts
        at `now`, no earlier than the previous one was decided; wake-up `k` comes `late(k)` after it was due. */
    method Acquire(key: string, bytes: nat, now: real, late: nat -> real)
      returns (decided: real, sleeps: nat, ghost due: real)
      requires Valid() && latest <= now && forall k: nat :: late(k) >= 0.0
      modifies this, global, perConn.Values
      ensures Valid() && latest <= decided && now <= decided && sleeps <= 1
      ensures fresh(perConn.Values - old(perConn.Values))
      // it is decided as soon as both budgets cover it, but for a late wake-up
      ensures now <= due && Due(now, due, late, decided, sleeps)
      ensures bytes > 0 ==> forall t: real :: t >= now ==> (old(Covered(key, bytes, t)) <==> t >= due)
      ensures bytes == 0 ==> sleeps == 0 && global.log == old(global.log) && perConn == old(perConn)
      ensures bytes > 0 ==>
                && global.log == old(global.log) + [Admission(decided, bytes)]
                && Log(key) == old(Log(key)) + [Admission(decided, bytes)]
      ensures forall k :: k != key ==> Log(k) == old(Log(k))
    {
      hide Solvent, TopUp, Bucket.Valid, Bucket.Ready;
      decided, sleeps, due := now, 0, now;
      if bytes == 0 {
        return;
      }
      latest := now;
      if key !in perConn {
        var full := new Bucket(perConnBps, now);
        forall t: real | t >= now ensures full.Ready(bytes, t) {
          full.FullReady(bytes, t);
        }
        perConn := perConn[key := full];
      }
      assert forall t: real :: t >= now ==>
        (old(Covered(key, bytes, t)) <==> global.Ready(bytes, t) && perConn[key].Ready(bytes, t));
      decided, sleeps, due := AdmitBoth(global, perConn[key], bytes, now, late);
      latest := decided;
    }
  }

  /** The head of the line: loops until both buckets admit the request, which takes at most one sleep. */
  method AdmitBoth(a: Bucket, b: Bucket, bytes: nat, now: real, late: nat -> real)
    returns (decided: real, sleeps: nat, ghost due: real)
    requires a != b && a.Valid() && b.Valid() && a.lastRefill <= now && b.lastRefill <= now
    requires forall k: nat :: late(k) >= 0.0
    modifies a, b
    ensures a.Valid() && b.Valid() && a.lastRefill <= decided && b.lastRefill <= decided
    ensures now <= decided && sleeps <= 1
    ensures now <= due && Due(now, due, late, decided, sleeps)
    ensures forall t: real :: t >= now ==> (old(a.Ready(bytes, t)) && old(b.Ready(bytes, t)) <==> t >= due)
    ensures a.log == old(a.log) + [Admission(decided, bytes)]
    ensures b.log == old(b.log) + [Admission(decided, bytes)]
  {
    hide Solvent, TopUp;
    decided, sleeps, due := now, 0, now;
    while true
      invariant sleeps <= 1 && now <= decided
      invariant a.Valid() && b.Valid() && a.lastRefill <= decided && b.lastRefill <= decided
      invariant a.log == old(a.log) && b.log == old(b.log)
      invariant sleeps == 0 ==>
                  && decided == now == due
                  && forall t: real ::
                       a.Ready(bytes, t) == old(a.Ready(bytes, t)) && b.Ready(bytes, t) == old(b.Ready(bytes, t))
      invariant sleeps == 1 ==>
                  && now < due && decided == due + late(0) && a.Ready(bytes, decided) && b.Ready(bytes, decided)
                  && forall t: real :: t >= now ==> (old(a.Ready(bytes, t)) && old(b.Ready(bytes, t)) <==> t >= due)
      decreases 1 - sleeps
    {
      label Head:
      var waitA := a.WaitFor(bytes, decided);
      assert forall t: real :: b.Ready(bytes, t) == old@Head(b.Ready(bytes, t));
      var waitB := b.WaitFor(bytes, decided);
      var wait := RMax(waitA, waitB);
      assert forall t: real :: t >= decided ==> (old@Head(a.Ready(bytes, t)) <==> t >= decided + waitA);
      assert forall t: real :: t >= decided ==> (old@Head(b.Ready(bytes, t)) <==> t >= decided + waitB);
      if wait == 0.0 {
        a.Consume(bytes, decided);
        b.Consume(bytes, decided);
        return;
      }
      due := decided + wait;
      decided, sleeps := decided + wait + late(sleeps), sleeps + 1;
    }
  }

  // ---- the rate bound over real time windows ------------------------------------------------------

  /** Bytes admitted at or after `from` and at or before `to`. */
  function Within(log: seq<Admission>, from: real, to: real, k: nat): nat
    requires k <= |log|
  {
    if k == 0 then 0
    else Within(log, from, to, k - 1) + if from <= log[k - 1].time <= to then log[k - 1].bytes else 0
  }

  /** Admissions `[i, j)` are inside the window; those of `[0, i)` come before it. */
  lemma {:induction false} WithinIsRun(log: seq<Admission>, from: real, to: real, i: nat, j: nat)
    requires i <= j <= |log|
    requires forall x :: 0 <= x < i ==> log[x].time < from
    requires forall x :: i <= x < j ==> from <= log[x].time <= to
    ensures Within(log, from, to, j) == Upto(log, j) - Upto(log, i)
    decreases j
  {
    if i < j {
      WithinIsRun(log, from, to, i, j - 1);
    } else if i > 0 {
      WithinIsRun(log, from, to, i - 1, i - 1);
    }
  }

  lemma {:induction false} WithinStops(log: seq<Admission>, from: real, to: real, j: nat, k: nat)
    requires j <= k <= |log| && forall x :: j <= x < k ==> log[x].time > to
    ensures Within(log, from, to, k) == Within(log, from, to, j)
  {
    if j < k {
      WithinStops(log, from, to, j, k - 1);
    }
  }

  /** In any window of real time a bucket admits at most `rate` times its length plus one second's burst, or plus
      the last request of the window when that is larger. */
  lemma WindowBound(log: seq<Admission>, rate: real, burst: real, from: real, to: real) returns (last: nat)
    requires Sorted(log) && RateBound(log, rate, burst) && rate >= 0.0
    ensures Within(log, from, to, |log|) > 0 ==>
              && last < |log| && from <= log[last].time <= to
              && (forall x :: last < x < |log| ==> log[x].time > to)
              && Within(log, from, to, |log|) as real <= rate * (to - from) + RMax(burst, log[last].bytes as real)
  {
    var i, j := Edges(log, from, to);
    last := if j > 0 then j - 1 else 0;
    WithinWindow(log, from, to, i, j);
    hide Within, Upto, RateBound, Sorted;
    if i < j {
      WiderWindow(log, rate, burst, i, last, to - from);
    }
  }

  /** What a window admits is the run between its edges, or nothing. */
  lemma WithinWindow(log: seq<Admission>, from: real, to: real, i: nat, j: nat)
    requires i <= |log| && j <= |log| && forall x :: 0 <= x < i ==> log[x].time < from
    requires forall x :: i <= x < j ==> from <= log[x].time <= to
    requires forall x :: j <= x < |log| ==> log[x].time > to
    ensures Within(log, from, to, |log|) == if i < j then Upto(log, j) - Upto(log, i) else 0
  {
    WithinStops(log, from, to, j, |log|);
    hide Within, Upto;
    WithinIsRun(log, from, to, if i < j then i else j, j);
  }

  lemma Edges(log: seq<Admission>, from: real, to: real) returns (i: nat, j: nat)
    requires Sorted(log)
    ensures i <= |log| && j <= |log|
    ensures forall x :: 0 <= x < i ==> log[x].time < from
    ensures forall x :: i <= x < j ==> from <= log[x].time <= to
    ensures forall x :: j <= x < |log| ==> log[x].time > to
    ensures j <= i ==> forall x :: 0 <= x < j ==> log[x].time < from
  {
    i, j := 0, |log|;
    while i < |log| && log[i].time < from
      invariant i <= |log| && forall x :: 0 <= x < i ==> log[x].time < from
    {
      i := i + 1;
    }
    while j > 0 && log[j - 1].time > to
      invariant j <= |log| && forall x :: j <= x < |log| ==> log[x].time > to
    {
      j := j - 1;
    }
  }

  lemma WiderWindow(log: seq<Admission>, rate: real, burst: real, i: nat, j: nat, length: real)
    requires i <= j < |log| && RateBound(log, rate, burst)
    requires rate >= 0.0 && length >= log[j].time - log[i].time
    ensures (Upto(log, j + 1) - Upto(log, i)) as real <= rate * length + RMax(burst, log[j].bytes as real)
  {
    assert WithinRate(log, rate, burst, i, j);
    ScaleMonotone(rate, log[j].time - log[i].time, length);
  }
}
