/** The waits between the attempts of Reconnect (client.go), in Go's 64-bit
    nanoseconds. */
module Backoff {

  const LIMIT: int := 0x8000_0000_0000_0000

  predicate Duration(d: int) {
    -LIMIT <= d < LIMIT
  }

  /** Two's complement addition of d to itself. */
  function Doubled(d: int): int {
    var r := (2 * d) % (2 * LIMIT);
    if r >= LIMIT then r - 2 * LIMIT else r
  }

  /** What the loop does to its variable after a wait. */
  function Grown(backoff: int, maxBackoff: int): int {
    if backoff <= 0 || backoff >= maxBackoff then backoff
    else
      var d := Doubled(backoff);
      if d > maxBackoff then maxBackoff else d
  }

  /** The variable before attempt k + 2. */
  function Before(backoff: int, maxBackoff: int, k: nat): int {
    if k == 0 then backoff else Grown(Before(backoff, maxBackoff, k - 1), maxBackoff)
  }

  /** The wait before attempt k + 2: none once the variable is not positive. */
  function WaitBefore(backoff: int, maxBackoff: int, k: nat): nat {
    var d := Before(backoff, maxBackoff, k);
    if d > 0 then d else 0
  }

  function Power(k: nat): (p: nat)
    ensures p >= 1
  {
    if k == 0 then 1 else 2 * Power(k - 1)
  }

  function Min(a: int, b: int): int {
    if a < b then a else b
  }

  /** The wait the policy promises before attempt k + 2. */
  function Promised(backoff: int, maxBackoff: int, k: nat): int {
    if backoff > maxBackoff then backoff else Min(backoff * Power(k), maxBackoff)
  }

  /** The first of backoff, 2 backoff, 4 backoff, ... that cannot be doubled. */
  function LastDoubling(backoff: int): (d: int)
    requires 0 < backoff < LIMIT
    ensures LIMIT / 2 <= d < LIMIT && backoff <= d
    decreases LIMIT - backoff
  {
    if 2 * backoff >= LIMIT then backoff else LastDoubling(2 * backoff)
  }

  lemma {:induction false} LastDoublingIsReached(backoff: int, k: nat)
    requires 0 < backoff < LIMIT
    ensures backoff * Power(k) < LastDoubling(backoff) ==> 2 * (backoff * Power(k)) < LIMIT
    decreases k
  {
    if k == 0 {
    } else if 2 * backoff < LIMIT {
      LastDoublingIsReached(2 * backoff, k - 1);
      DoubledBase(backoff, Power(k - 1));
    } else {
      NotLess(backoff, Power(k));
    }
  }

  lemma DoubledBase(a: int, b: int)
    ensures (2 * a) * b == a * (2 * b)
  {
  }

  lemma NotLess(a: int, b: int)
    requires a > 0 && b >= 1
    ensures a * b >= a
  {
  }

  lemma GrownIsDoubled(d: int, maxBackoff: int)
    requires 0 < d && 2 * d < LIMIT && 0 < maxBackoff
    ensures Grown(Min(d, maxBackoff), maxBackoff) == Min(2 * d, maxBackoff)
  {
  }

  lemma {:induction false} PowerDoubles(backoff: int, k: nat)
    requires k > 0
    ensures backoff * Power(k) == 2 * (backoff * Power(k - 1))
  {
  }

  /** Before the doublings get too large, the loop keeps the promise. */
  lemma {:induction false} PromiseIsKept(backoff: int, maxBackoff: int, k: nat)
    requires 0 < backoff < LIMIT && backoff <= maxBackoff < LIMIT && maxBackoff <= LastDoubling(backoff)
    ensures Before(backoff, maxBackoff, k) == Promised(backoff, maxBackoff, k) > 0
  {
    if k == 0 {
      assert backoff * Power(0) == backoff;
    } else {
      var p := backoff * Power(k - 1);
      PromiseIsKept(backoff, maxBackoff, k - 1);
      PowerDoubles(backoff, k);
      if p < maxBackoff {
        LastDoublingIsReached(backoff, k - 1);
        GrownIsDoubled(p, maxBackoff);
      }
    }
  }

  /** A policy whose first backoff is already above the maximum waits constantly. */
  lemma {:induction false} LargeBackoffIsConstant(backoff: int, maxBackoff: int, k: nat)
    requires 0 < maxBackoff < backoff < LIMIT
    ensures Before(backoff, maxBackoff, k) == backoff
  {
    if k == 0 {
    } else {
      LargeBackoffIsConstant(backoff, maxBackoff, k - 1);
    }
  }

  /** The attempt before which the doubling goes wrong. */
  lemma {:induction false} DoublingsUpTo(backoff: int, maxBackoff: int) returns (k: nat)
    requires 0 < backoff < LIMIT && LastDoubling(backoff) < maxBackoff < LIMIT
    ensures Before(backoff, maxBackoff, k) == LastDoubling(backoff)
    decreases LIMIT - backoff
  {
    if 2 * backoff >= LIMIT {
      k := 0;
    } else {
      var j := DoublingsUpTo(2 * backoff, maxBackoff);
      k := j + 1;
      ShiftBefore(backoff, maxBackoff, j);
      GrownIsDoubled(backoff, maxBackoff);
    }
  }

  lemma {:induction false} ShiftBefore(backoff: int, maxBackoff: int, j: nat)
    ensures Before(Grown(backoff, maxBackoff), maxBackoff, j) == Before(backoff, maxBackoff, j + 1)
  {
    if j == 0 {
    } else {
      ShiftBefore(backoff, maxBackoff, j - 1);
    }
  }

  lemma {:induction false} PromiseIsBroken(backoff: int, maxBackoff: int) returns (k: nat)
    requires 0 < backoff < LIMIT && LastDoubling(backoff) < maxBackoff < LIMIT
    ensures Before(backoff, maxBackoff, k) < 0 < Promised(backoff, maxBackoff, k)
  {
    var j := DoublingsUpTo(backoff, maxBackoff);
    k := j + 1;
    assert Before(backoff, maxBackoff, k) == Doubled(LastDoubling(backoff));
    Positive(backoff, Power(k));
  }

  lemma Positive(a: int, b: int)
    requires a > 0 && b > 0
    ensures a * b > 0
  {
  }

  /** The promise is kept before every attempt exactly when the maximum does not
      lie above the last doubling; a maximum of at most 2^62 never does. */
  lemma {:induction false} PromiseIsKeptExactly(backoff: int, maxBackoff: int)
    requires 0 < backoff <= maxBackoff < LIMIT
    ensures (forall k: nat :: Before(backoff, maxBackoff, k) == Promised(backoff, maxBackoff, k))
            <==> maxBackoff <= LastDoubling(backoff)
    ensures maxBackoff <= LIMIT / 2 ==> maxBackoff <= LastDoubling(backoff)
  {
    if maxBackoff <= LastDoubling(backoff) {
      forall k: nat ensures Before(backoff, maxBackoff, k) == Promised(backoff, maxBackoff, k) {
        PromiseIsKept(backoff, maxBackoff, k);
      }
    } else {
      var k := PromiseIsBroken(backoff, maxBackoff);
      assert Before(backoff, maxBackoff, k) != Promised(backoff, maxBackoff, k);
    }
  }

  /** A legal policy for which the loop stops waiting: 2^62 doubles to a negative
      duration. */
  lemma {:induction false} OverflowStopsTheWaits()
    ensures var backoff := LIMIT / 2;
            Before(backoff, LIMIT - 1, 1) == -LIMIT && WaitBefore(backoff, LIMIT - 1, 1) == 0
            && Promised(backoff, LIMIT - 1, 1) == LIMIT - 1
  {
    assert Power(1) == 2;
  }

  // ---- the waits -----------------------------------------------------------

  /** A policy without a backoff never waits. */
  lemma {:induction false} NoBackoffNoWait(backoff: int, maxBackoff: int, k: nat)
    requires backoff <= 0
    ensures WaitBefore(backoff, maxBackoff, k) == 0
  {
    StuckAtZero(backoff, maxBackoff, k);
  }

  lemma {:induction false} StuckAtZero(backoff: int, maxBackoff: int, k: nat)
    requires backoff <= 0
    ensures Before(backoff, maxBackoff, k) == backoff
  {
    if k == 0 {
    } else {
      StuckAtZero(backoff, maxBackoff, k - 1);
    }
  }

  lemma {:induction false} TheWaitIsAsPromised(backoff: int, maxBackoff: int, k: nat)
    requires Duration(backoff) && Duration(maxBackoff)
    ensures backoff <= 0 ==> WaitBefore(backoff, maxBackoff, k) == 0
    ensures 0 < maxBackoff < backoff ==> WaitBefore(backoff, maxBackoff, k) == backoff
    ensures 0 < backoff <= maxBackoff && maxBackoff <= LastDoubling(backoff) ==>
              WaitBefore(backoff, maxBackoff, k) == Min(backoff * Power(k), maxBackoff)
  {
    if backoff <= 0 {
      NoBackoffNoWait(backoff, maxBackoff, k);
    } else if 0 < maxBackoff < backoff {
      LargeBackoffIsConstant(backoff, maxBackoff, k);
    } else if backoff <= maxBackoff && maxBackoff <= LastDoubling(backoff) {
      PromiseIsKept(backoff, maxBackoff, k);
    }
  }

  /** The condition is exact for the waits too: under any other maximum some wait is
      left out that was promised. */
  lemma {:induction false} WaitsAreAsPromisedExactly(backoff: int, maxBackoff: int)
    requires 0 < backoff <= maxBackoff < LIMIT
    ensures (forall k: nat :: WaitBefore(backoff, maxBackoff, k) == Promised(backoff, maxBackoff, k))
            <==> maxBackoff <= LastDoubling(backoff)
  {
    if maxBackoff <= LastDoubling(backoff) {
      forall k: nat ensures WaitBefore(backoff, maxBackoff, k) == Promised(backoff, maxBackoff, k) {
        PromiseIsKept(backoff, maxBackoff, k);
      }
    } else {
      var k := PromiseIsBroken(backoff, maxBackoff);
      assert WaitBefore(backoff, maxBackoff, k) == 0 != Promised(backoff, maxBackoff, k);
    }
  }

  /** The waits a Reconnect makes when every attempt fails: one before each
      attempt but the first. */
  method Waits(policyBackoff: int, maxBackoff: int, maxAttempts: int) returns (waits: seq<int>)
    requires Duration(policyBackoff) && Duration(maxBackoff)
    ensures |waits| == if maxAttempts <= 1 then 0 else maxAttempts - 1
    ensures forall k :: 0 <= k < |waits| ==> waits[k] == WaitBefore(policyBackoff, maxBackoff, k)
    ensures policyBackoff <= 0 ==> forall k :: 0 <= k < |waits| ==> waits[k] == 0
    ensures 0 < maxBackoff < policyBackoff ==> forall k :: 0 <= k < |waits| ==> waits[k] == policyBackoff
    ensures 0 < policyBackoff <= maxBackoff <= LIMIT / 2 ==>
              forall k :: 0 <= k < |waits| ==> waits[k] == Min(policyBackoff * Power(k), maxBackoff)
    ensures 0 < policyBackoff <= maxBackoff && maxBackoff <= LastDoubling(policyBackoff) ==>
              forall k :: 0 <= k < |waits| ==> waits[k] == Min(policyBackoff * Power(k), maxBackoff)
  {
    waits := [];
    var backoff := policyBackoff;
    var attempt := 1;
    while attempt <= maxAttempts
      invariant attempt >= 1 && (attempt <= maxAttempts + 1 || attempt == 1)
      invariant |waits| == if attempt <= 2 then 0 else attempt - 2
      invariant backoff == Before(policyBackoff, maxBackoff, |waits|)
      invariant forall k :: 0 <= k < |waits| ==> waits[k] == WaitBefore(policyBackoff, maxBackoff, k)
    {
      if attempt > 1 {
        if backoff > 0 {
          waits := waits + [backoff];
          if backoff < maxBackoff {
            backoff := Doubled(backoff);
            if backoff > maxBackoff {
              backoff := maxBackoff;
            }
          }
        } else {
          waits := waits + [0];
        }
      }
      attempt := attempt + 1;
    }    forall k | 0 <= k < |waits|
      ensures policyBackoff <= 0 ==> waits[k] == 0
      ensures 0 < maxBackoff < policyBackoff ==> waits[k] == policyBackoff
      ensures 0 < policyBackoff <= maxBackoff && maxBackoff <= LastDoubling(policyBackoff) ==>
                waits[k] == Min(policyBackoff * Power(k), maxBackoff)
    {
      TheWaitIsAsPromised(policyBackoff, maxBackoff, k);
    }
  }
}
