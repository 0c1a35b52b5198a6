/** Per-key exponential backoff with a ceiling and jitter. */
module Backoff {
  type Key = string

  /** `base * 2 ** n`, by doubling. */
  function Doubled(base: real, n: nat): real {
    if n == 0 then base else 2.0 * Doubled(base, n - 1)
  }

  function Min(a: real, b: real): real { if a <= b then a else b }

  const CLAMP: nat := 32

  /** The delay after `failures` earlier ones, before jitter, with the exponent held at `clamp`. */
  function Delay(base: real, maximum: real, failures: nat, clamp: nat): real {
    Min(Doubled(base, if failures < clamp then failures else clamp), maximum)
  }

  /** The delay with a jitter sample `u`, drawn from -jitter to jitter. The jitter comes after the ceiling. */
  function Jittered(delay: real, u: real): real { delay * (1.0 + u) }

  function FailuresOf(failures: map<Key, nat>, key: Key): nat {
    if key in failures then failures[key] else 0
  }

  class ExponentialBackoff {
    const base: real
    const maximum: real
    const jitter: real
    var failures: map<Key, nat>

    constructor (base: real, maximum: real, jitter: real)
      ensures this.base == base && this.maximum == maximum && this.jitter == jitter && failures == map[]
    {
      this.base, this.maximum, this.jitter, this.failures := base, maximum, jitter, map[];
    }

    /** Counts a failure and answers the delay it earns; other keys are not slowed down. */
    method NextBackoff(key: Key, u: real) returns (delay: real)
      requires -jitter <= u <= jitter
      modifies this
      ensures failures == old(failures)[key := FailuresOf(old(failures), key) + 1]
      ensures delay == (var d := Delay(base, maximum, FailuresOf(old(failures), key), CLAMP);
                        if jitter == 0.0 then d else Jittered(d, u))
    {
      var n := if key in failures then failures[key] else 0;
      failures := failures[key := n + 1];
      delay := Min(Doubled(base, if n < CLAMP then n else CLAMP), maximum);
      if jitter != 0.0 {
        delay := delay * (1.0 + u);
      }
    }

    method Forget(key: Key)
      modifies this
      ensures failures == old(failures) - {key}
    {
      failures := failures - {key};
    }
  }

  // -- What the delays come to --------------------------------------------------------

  lemma {:induction false} DoublingGrows(base: real, m: nat, n: nat)
    requires base >= 0.0 && m <= n
    ensures base <= Doubled(base, m) <= Doubled(base, n)
    decreases n
  {
    if m < n {
      DoublingGrows(base, m, n - 1);
    } else if n > 0 {
      DoublingGrows(base, n - 1, n - 1);
    }
  }

  /** More failures never make for a shorter delay. */
  lemma DelayNeverShrinks(base: real, maximum: real, m: nat, n: nat, clamp: nat)
    requires base >= 0.0 && m <= n
    ensures Delay(base, maximum, m, clamp) <= Delay(base, maximum, n, clamp)
  {
    DoublingGrows(base, if m < clamp then m else clamp, if n < clamp then n else clamp);
  }

  /** The first failure waits the base delay, and each of the next 32 doubles it, all within the ceiling; then it stays. */
  lemma DelayDoubles(base: real, maximum: real, n: nat)
    requires base >= 0.0 && maximum >= 0.0
    ensures Delay(base, maximum, 0, CLAMP) == Min(base, maximum)
    ensures var before, after := Delay(base, maximum, n, CLAMP), Delay(base, maximum, n + 1, CLAMP);
      after == if n >= 32 then before else if 2.0 * before <= maximum then 2.0 * before else maximum
  {
    DoublingGrows(base, 0, if n < 32 then n else 32);
    if n < 32 {
      assert Doubled(base, n + 1) == 2.0 * Doubled(base, n);
    }
  }

  /** The clamp never shows exactly when the clamped doubling already reaches the ceiling. */
  lemma ClampNeverShows(base: real, maximum: real, clamp: nat)
    requires base > 0.0
    ensures Doubled(base, clamp) >= maximum <==>
            forall n: nat :: Delay(base, maximum, n, clamp) == Min(Doubled(base, n), maximum)
  {
    if Doubled(base, clamp) >= maximum {
      forall n: nat ensures Delay(base, maximum, n, clamp) == Min(Doubled(base, n), maximum) {
        if n >= clamp {
          DoublingGrows(base, clamp, n);
        }
      }
    } else {
      DoublingGrows(base, 0, clamp);
      assert Delay(base, maximum, clamp + 1, clamp) == Doubled(base, clamp);
    }
  }

  lemma ScaleMonotone(base: real, x: real, y: real)
    requires base >= 0.0 && x <= y
    ensures base * x <= base * y
  {
  }

  /** The jittered delay stays within the jitter's fraction of the delay. */
  lemma JitterIsBounded(delay: real, jitter: real, u: real)
    requires delay >= 0.0 && -jitter <= u <= jitter
    ensures delay * (1.0 - jitter) <= Jittered(delay, u) <= delay * (1.0 + jitter)
  {
    ScaleMonotone(delay, 1.0 - jitter, 1.0 + u);
    ScaleMonotone(delay, 1.0 + u, 1.0 + jitter);
  }

  /** A delay stays within the ceiling for every jitter sample exactly when it leaves room for the whole jitter. */
  lemma CeilingHoldsExactly(delay: real, maximum: real, jitter: real)
    requires delay >= 0.0 && jitter >= 0.0
    ensures (forall u: real | -jitter <= u <= jitter :: Jittered(delay, u) <= maximum) <==>
            delay * (1.0 + jitter) <= maximum
  {
    assert Jittered(delay, jitter) == delay * (1.0 + jitter);
    forall u: real | -jitter <= u <= jitter ensures Jittered(delay, u) <= delay * (1.0 + jitter) {
      JitterIsBounded(delay, jitter, u);
    }
  }

  /** A retry with the controller's own settings, after eight failures, that waits longer than its ceiling. */
  lemma CeilingMayBeExceeded()
    ensures Jittered(Delay(5.0, 900.0, 8, CLAMP), 0.1) == 990.0
  {
    assert Doubled(5.0, 2) == 20.0;
    assert Doubled(5.0, 4) == 80.0;
    assert Doubled(5.0, 6) == 320.0;
    assert Doubled(5.0, 8) == 1280.0;
  }
}
