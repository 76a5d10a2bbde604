// The wait before the loop fetches again for a demand whose fetch failed.

module Backoff {
  const SECOND := 1_000_000_000
  const MAX_DEMAND_RETRY := 300 * SECOND

  function Min(a: int, b: int): int { if a < b then a else b }
  function Max(a: int, b: int): int { if a < b then b else a }

  function Pow2(k: nat): nat { if k == 0 then 1 else 2 * Pow2(k - 1) }

  /** One more failure doubles the backoff, between the floor and the bound. */
  function NextBackoff(backoff: int, demandMin: int): int
  {
    Min(Max(2 * backoff, demandMin), MAX_DEMAND_RETRY)
  }

  /** The backoff after a number of failures in a row. */
  function BackoffAfter(fails: nat, demandMin: int): int
  {
    if fails == 0 then 0 else NextBackoff(BackoffAfter(fails - 1, demandMin), demandMin)
  }

  /** The shortest wait the jitter leaves of a backoff. */
  function LeastWait(backoff: int, floor: int): int
  {
    if backoff < 2 || Max(floor, backoff / 2) >= backoff then backoff else Max(floor, backoff / 2)
  }

  /** The k-th failure in a row backs off by the floor doubled k - 1 times, and
      never past the bound. */
  lemma {:induction false} BackoffDoubles(fails: nat, demandMin: int)
    requires fails > 0 && 0 < demandMin <= MAX_DEMAND_RETRY
    ensures BackoffAfter(fails, demandMin) == Min(Pow2(fails - 1) * demandMin, MAX_DEMAND_RETRY)
  {
    if fails > 1 {
      BackoffDoubles(fails - 1, demandMin);
      Pow2Times(fails - 2, demandMin);
    }
  }

  lemma Pow2Times(k: nat, n: int)
    requires n > 0
    ensures Pow2(k + 1) * n == 2 * (Pow2(k) * n)
    ensures Pow2(k) * n >= n
  {
    Pow2Positive(k);
    assert Pow2(k) * n == n + (Pow2(k) - 1) * n;
  }

  lemma {:induction false} Pow2Positive(k: nat)
    ensures Pow2(k) >= 1
  {
    if k > 0 {
      Pow2Positive(k - 1);
    }
  }

  lemma {:induction false} BackoffBounds(fails: nat, demandMin: int)
    requires demandMin >= 0
    ensures 0 <= BackoffAfter(fails, demandMin) <= MAX_DEMAND_RETRY
    ensures fails > 0 ==> BackoffAfter(fails, demandMin) >= Min(demandMin, MAX_DEMAND_RETRY)
    ensures demandMin == 0 ==> BackoffAfter(fails, demandMin) == 0
  {
    if fails > 0 {
      BackoffBounds(fails - 1, demandMin);
    }
  }

  /** A floor at or under the bound holds every wait up to itself. A floor above
      the bound does not: the wait is then the bound, which is shorter. No wait is
      under half the backoff, and the least is over it only for the floor. */
  lemma WaitKeepsFloor(fails: nat, demandMin: int)
    requires fails > 0 && demandMin >= 0
    ensures LeastWait(BackoffAfter(fails, demandMin), demandMin) >= demandMin <==> demandMin <= MAX_DEMAND_RETRY
    ensures var backoff := BackoffAfter(fails, demandMin);
            backoff / 2 <= LeastWait(backoff, demandMin) <= backoff
    ensures var backoff := BackoffAfter(fails, demandMin);
            LeastWait(backoff, demandMin) > backoff / 2 ==> LeastWait(backoff, demandMin) == Min(demandMin, backoff)
  {
    BackoffBounds(fails, demandMin);
  }

  /** The jitter comes off the backoff and never goes under the floor, so the
      wait is between half the backoff, or the floor when that is more, and the
      backoff. */
  method Jittered(backoff: int, floor: int) returns (wait: int)
    requires backoff >= 0 && floor >= 0
    ensures LeastWait(backoff, floor) <= wait <= backoff
  {
    if backoff < 2 {
      return backoff;
    }
    var lowest := Max(floor, backoff / 2);
    if lowest >= backoff {
      return backoff;
    }
    var jitter: nat := *;
    return lowest + jitter % (backoff - lowest + 1);
  }
}
