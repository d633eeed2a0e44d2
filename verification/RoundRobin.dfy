/** Cycling through a list from any starting point reaches every entry. */
module RoundRobin {
  /** The entry asked at step `step` of a cycle of `count` entries starting at `start`. */
  function Turn(start: nat, step: nat, count: nat): (q: nat)
    requires count > 0
    ensures q < count
  {
    (start + step) % count
  }

  /** The step at which a cycle of `count` entries starting at `start` reaches entry `q`. */
  lemma Reaches(start: nat, count: nat, q: nat) returns (step: nat)
    requires q < count
    ensures step < count && Turn(start, step, count) == q
  {
    var at := start % count;
    step := if at <= q then q - at else q + count - at;
    RemainderShift(start, step, count, q);
  }

  lemma RemainderShift(start: nat, step: nat, count: nat, q: nat)
    requires q < count && (start % count + step == q || start % count + step == q + count)
    ensures (start + step) % count == q
  {
    var laps := start / count;
    assert start + step == laps * count + (start % count + step);
    if start % count + step == q {
      UniqueRemainder(start + step, laps, q, count);
    } else {
      UniqueRemainder(start + step, laps + 1, q, count);
    }
  }

  lemma UniqueRemainder(n: nat, laps: nat, r: nat, count: nat)
    requires r < count && n == laps * count + r
    ensures n % count == r
  {
    var d := n / count;
    LapsDiffer(d, laps, count);
    LapsDiffer(laps, d, count);
  }

  lemma {:induction false} LapsDiffer(a: nat, b: nat, count: nat)
    ensures a > b ==> a * count >= b * count + count
  {
    if a > b + 1 {
      LapsDiffer(a - 1, b, count);
    }
    assert a > b ==> a * count == (a - 1) * count + count;
  }
}
