/** `retry.Do`: bounded attempts with exponential backoff and jitter. */
module Retry {
  import opened Common
  import opened Int64

  datatype Result<E> = Success | InvalidAttempts | ContextError | Failed(error: E)

  /** What the loop observes of its surroundings: is the context done before
      attempt `k`, does it end the wait after attempt `k`, and the jitter drawn then. */
  datatype World = World(doneBefore: nat -> bool, doneDuring: nat -> bool, jitter: nat -> int)

  // ------------------------------------------------------------------
  // Durations
  // ------------------------------------------------------------------

  function Pow2(k: nat): (r: nat)
    ensures r >= 1
  {
    if k == 0 then 1 else 2 * Pow2(k - 1)
  }

  /** `time.Duration(1 << attempt)` in 64 bits. */
  function Shift(attempt: nat): int
  {
    if attempt < 64 then Wrap64(Pow2(attempt)) else 0
  }

  /** The jitter is drawn below half the base, and is zero when there is no half. */
  predicate JitterOk(base: int, jitter: int)
  {
    0 <= jitter <= MaxJitter(base)
  }

  function MaxJitter(base: int): nat
  {
    if base / 2 > 0 then base / 2 - 1 else 0
  }

  /** The wait after a failed attempt, as computed. */
  function Sleep(base: int, attempt: nat, jitter: int): int
  {
    Wrap64(Wrap64(base * Shift(attempt)) + jitter)
  }

  /** The wait as meant. */
  function Ideal(base: int, attempt: nat, jitter: int): int
  {
    base * Pow2(attempt) + jitter
  }

  // ------------------------------------------------------------------
  // The loop
  // ------------------------------------------------------------------

  /** `fn` closes over state of type `S`; this is that state after `k` calls. */
  function After<S, E>(fn: (S, nat) -> (S, Option<E>), s: S, k: nat): S
  {
    if k == 0 then s else fn(After(fn, s, k - 1), k - 1).0
  }

  /** The error of call `k`. */
  function ErrorOf<S, E>(fn: (S, nat) -> (S, Option<E>), s: S, k: nat): Option<E>
  {
    fn(After(fn, s, k), k).1
  }

  /** Calls `fn` until it succeeds, the attempts are used up, or the context is
      seen done; `state` is what the calls left behind. */
  method Do<S, E>(maxAttempts: int, base: int, fn: (S, nat) -> (S, Option<E>), initial: S, world: World)
    returns (r: Result<E>, state: S, attempts: nat, sleeps: seq<int>)
    ensures state == After(fn, initial, attempts)
    ensures r.InvalidAttempts? <==> maxAttempts <= 0
    ensures maxAttempts <= 0 ==> attempts == 0
    ensures maxAttempts > 0 ==> attempts <= maxAttempts
    ensures forall k :: 0 <= k < attempts ==> !world.doneBefore(k)
    ensures forall k :: 0 <= k < attempts - 1 ==> ErrorOf(fn, initial, k).Some? && !world.doneDuring(k)
    ensures r.Success? ==> attempts >= 1 && ErrorOf(fn, initial, attempts - 1).None?
    ensures r.Failed? ==> attempts == maxAttempts >= 1 && ErrorOf(fn, initial, attempts - 1) == Some(r.error)
    ensures r.ContextError? ==>
      && (attempts >= 1 ==> ErrorOf(fn, initial, attempts - 1).Some?)
      && attempts < maxAttempts
      && (world.doneBefore(attempts) || (attempts >= 1 && world.doneDuring(attempts - 1)))
    ensures |sleeps| == (if r.Success? || r.Failed? then attempts - 1 else attempts)
    ensures forall k :: 0 <= k < |sleeps| ==> sleeps[k] == Sleep(base, k, world.jitter(k))
  {
    state, attempts, sleeps := initial, 0, [];
    if maxAttempts <= 0 {
      return InvalidAttempts, state, attempts, sleeps;
    }
    while attempts < maxAttempts
      invariant 0 <= attempts <= maxAttempts
      invariant attempts < maxAttempts
      invariant state == After(fn, initial, attempts)
      invariant |sleeps| == attempts
      invariant forall k :: 0 <= k < attempts ==> !world.doneBefore(k)
      invariant forall k :: 0 <= k < attempts ==> ErrorOf(fn, initial, k).Some? && !world.doneDuring(k)
      invariant forall k :: 0 <= k < |sleeps| ==> sleeps[k] == Sleep(base, k, world.jitter(k))
    {
      if world.doneBefore(attempts) {
        return ContextError, state, attempts, sleeps;
      }
      var attempt := attempts;
      var (next, err) := fn(state, attempt);
      state, attempts := next, attempts + 1;
      if err.None? {
        return Success, state, attempts, sleeps;
      }
      if attempt == maxAttempts - 1 {
        return Failed(err.value), state, attempts, sleeps;
      }
      var backoff := Wrap64(base * Shift(attempt));
      sleeps := sleeps + [Wrap64(backoff + world.jitter(attempt))];
      if world.doneDuring(attempt) {
        return ContextError, state, attempts, sleeps;
      }
    }
    assert false;
  }

  // ------------------------------------------------------------------
  // Properties of the waits
  // ------------------------------------------------------------------

  lemma {:induction false} Pow2Monotone(j: nat, k: nat)
    requires j <= k
    ensures Pow2(j) <= Pow2(k)
    decreases k
  {
    if j < k {
      Pow2Monotone(j, k - 1);
    }
  }

  lemma Pow2At63()
    ensures Pow2(63) == TWO63
  {
    assert Pow2(8) == 256;
    assert Pow2(16) == 65536;
    assert Pow2(24) == 0x100_0000;
    assert Pow2(32) == 0x1_0000_0000;
    assert Pow2(40) == 0x100_0000_0000;
    assert Pow2(48) == 0x1_0000_0000_0000;
    assert Pow2(56) == 0x100_0000_0000_0000;
  }

  lemma Product(base: int, j: nat, k: nat)
    requires base >= 0 && j <= k
    ensures 0 <= base * j <= base * k
    ensures base >= 1 ==> base * j >= j
  {
    assert base * k == base * j + base * (k - j);
    assert base >= 1 ==> base * j == j + (base - 1) * j;
  }

  /** The last wait of a run of `n` attempts fits, with the largest jitter. */
  predicate Fits(base: int, n: nat)
    requires n >= 2
  {
    -TWO63 <= base * Pow2(n - 2) && base * Pow2(n - 2) + MaxJitter(base) < TWO63
  }

  /** The wait after an attempt whose shift does not overflow. */
  lemma SmallShift(base: int, k: nat, jitter: int)
    requires k < 63 && -TWO63 <= base * Pow2(k) && 0 <= jitter && base * Pow2(k) + jitter < TWO63
    ensures Sleep(base, k, jitter) == Ideal(base, k, jitter)
  {
    Pow2At63();
    Pow2Below63(k);
    hide Pow2;
  }

  lemma Pow2Below63(k: nat)
    requires k < 63
    ensures Pow2(k) < Pow2(63)
  {
    Pow2Monotone(k, 62);
  }

  lemma SleepIsIdealUp(base: int, n: nat, k: nat, jitter: int)
    requires base > 0 && n >= 2 && k <= n - 2 && JitterOk(base, jitter) && Fits(base, n)
    ensures Sleep(base, k, jitter) == Ideal(base, k, jitter)
  {
    Pow2Monotone(k, n - 2);
    Product(base, Pow2(k), Pow2(n - 2));
    Pow2At63();
    if k >= 63 {
      Pow2Monotone(63, k);
    } else {
      SmallShift(base, k, jitter);
    }
    hide Pow2, Shift;
  }

  /** A negative base: the jitter is zero, and the shift by 63 still comes out right for
      minus one. */
  lemma SleepIsIdealDown(base: int, n: nat, k: nat, jitter: int)
    requires base < 0 && n >= 2 && k <= n - 2 && JitterOk(base, jitter) && Fits(base, n)
    ensures Sleep(base, k, jitter) == Ideal(base, k, jitter)
  {
    hide Pow2, Sleep, Ideal;
    Pow2Monotone(k, n - 2);
    Negated(base, Pow2(k), Pow2(n - 2));
    if k < 63 {
      SmallShift(base, k, jitter);
    } else {
      LargeShift(base, k);
    }
  }

  lemma Negated(base: int, j: nat, k: nat)
    requires base <= 0 && j <= k
    ensures base * k <= base * j <= 0
  {
    assert base * k == base * j + base * (k - j);
  }

  lemma LargeShift(base: int, k: nat)
    requires base < 0 && k >= 63 && -TWO63 <= base * Pow2(k)
    ensures Sleep(base, k, 0) == Ideal(base, k, 0)
  {
    Pow2At63();
    Pow2Past63(k);
    Pow2Monotone(63, k);
    hide Pow2;
    AtLeastOnce(base, Pow2(k));
    MinusOne(base);
  }

  lemma AtLeastOnce(base: int, p: nat)
    requires base < 0
    ensures base * p <= 0 - p
    ensures base < -1 ==> base * p <= -2 * p
  {
    assert base * p == 0 - p + (base + 1) * p;
    assert base < -1 ==> base * p == -2 * p + (base + 2) * p;
    Negated(base + 1, 0, p);
    if base < -1 {
      Negated(base + 2, 0, p);
    }
  }

  lemma Pow2Past63(k: nat)
    requires k >= 63
    ensures k > 63 ==> Pow2(k) > TWO63
  {
    Pow2At63();
    if k > 63 {
      assert Pow2(64) == 2 * Pow2(63);
      Pow2Monotone(64, k);
    }
  }

  lemma MinusOne(base: int)
    requires base == -1 && Pow2(63) == TWO63
    ensures Sleep(base, 63, 0) == Ideal(base, 63, 0)
  {
    hide Pow2;
  }

  lemma SleepIsIdeal(base: int, n: nat, k: nat, jitter: int)
    requires n >= 2 && k <= n - 2 && JitterOk(base, jitter) && Fits(base, n)
    ensures Sleep(base, k, jitter) == Ideal(base, k, jitter)
  {
    if base > 0 {
      SleepIsIdealUp(base, n, k, jitter);
    } else if base < 0 {
      SleepIsIdealDown(base, n, k, jitter);
    } else {
      assert base * Shift(k) == 0 && base * Pow2(k) == 0;
    }
  }

  /** Exactly when the 64-bit waits of a run of up to `n` attempts are the meant ones,
      whatever the base. */
  lemma ExactUntilOverflow(base: int, n: nat)
    requires n >= 2
    ensures (forall k: nat, jitter :: k <= n - 2 && JitterOk(base, jitter) ==>
               Sleep(base, k, jitter) == Ideal(base, k, jitter))
            <==> Fits(base, n)
  {
    hide Pow2, Shift;
    if Fits(base, n) {
      forall k: nat, jitter | k <= n - 2 && JitterOk(base, jitter)
        ensures Sleep(base, k, jitter) == Ideal(base, k, jitter)
      {
        SleepIsIdeal(base, n, k, jitter);
      }
    } else {
      assert JitterOk(base, MaxJitter(base)) && JitterOk(base, 0);
      assert Sleep(base, n - 2, MaxJitter(base)) != Ideal(base, n - 2, MaxJitter(base))
          || Sleep(base, n - 2, 0) != Ideal(base, n - 2, 0);
    }
  }

  /** Whatever the jitter, each meant wait is longer than the one before. */
  lemma WaitsGrow(base: int, k: nat, jitter: int, next: int)
    requires base > 0 && JitterOk(base, jitter) && JitterOk(base, next)
    ensures Ideal(base, k, jitter) < Ideal(base, k + 1, next)
  {
    assert base * Pow2(k + 1) == base * Pow2(k) + base * Pow2(k);
    Product(base, 1, Pow2(k));
  }

  function Sum(sleeps: seq<int>): int
  {
    if sleeps == [] then 0 else Sum(sleeps[..|sleeps| - 1]) + sleeps[|sleeps| - 1]
  }

  ghost predicate AllIdeal(base: int, sleeps: seq<int>, jitter: nat -> int)
  {
    forall k :: 0 <= k < |sleeps| ==> JitterOk(base, jitter(k)) && sleeps[k] == Ideal(base, k, jitter(k))
  }

  /** A geometric sum plus half a base for each wait. */
  function Bound(base: int, waits: nat): int
  {
    base * (Pow2(waits) - 1) + waits * (base / 2)
  }

  lemma BoundStep(base: int, k: nat)
    requires base >= 0
    ensures Bound(base, 0) == 0
    ensures Bound(base, k + 1) == Bound(base, k) + base * Pow2(k) + base / 2
    ensures Bound(base, k) <= Bound(base, k + 1)
  {
    var p := Pow2(k);
    assert Pow2(k + 1) == p + p;
    assert Pow2(0) == 1;
    hide Pow2;
    Distribute(base, p - 1, p);
    Distribute(base / 2, k, 1);
    Product(base, 0, p);
  }

  lemma Distribute(a: int, b: int, c: int)
    ensures a * (b + c) == a * b + a * c
    ensures (b + c) * a == b * a + c * a
  {
  }

  /** More attempts only make the bound larger. */
  lemma {:induction false} BoundGrows(base: int, m: nat, n: nat)
    requires base >= 0 && m <= n
    ensures Bound(base, m) <= Bound(base, n)
    decreases n
  {
    hide Bound;
    if m < n {
      BoundGrows(base, m, n - 1);
      BoundStep(base, n - 1);
    }
  }

  lemma {:induction false} TotalWait(base: int, sleeps: seq<int>, jitter: nat -> int)
    requires base >= 0 && AllIdeal(base, sleeps, jitter)
    ensures Sum(sleeps) <= Bound(base, |sleeps|)
  {
    hide Bound, Pow2;
    BoundStep(base, 0);
    if sleeps != [] {
      var k := |sleeps| - 1;
      var init := sleeps[..k];
      assert AllIdeal(base, init, jitter);
      TotalWait(base, init, jitter);
      BoundStep(base, k);
      assert sleeps[k] <= base * Pow2(k) + base / 2;
    }
  }

  lemma RunIsIdeal(base: int, n: nat, sleeps: seq<int>, jitter: nat -> int)
    requires base > 0 && n >= 2 && |sleeps| <= n - 1 && Fits(base, n)
    requires forall k :: 0 <= k < |sleeps| ==> JitterOk(base, jitter(k)) && sleeps[k] == Sleep(base, k, jitter(k))
    ensures AllIdeal(base, sleeps, jitter)
  {
    hide Sleep, Ideal, Fits, JitterOk;
    forall k | 0 <= k < |sleeps|
      ensures sleeps[k] == Ideal(base, k, jitter(k))
    {
      SleepIsIdeal(base, n, k, jitter(k));
    }
  }

  /** The waits of any run that does not overflow: strictly increasing, and bounded
      in total by base·(2^(n-1) − 1) + (n-1)·(base/2). */
  lemma WaitsOfARun(base: int, n: nat, sleeps: seq<int>, jitter: nat -> int)
    requires base > 0 && n >= 2 && |sleeps| <= n - 1 && Fits(base, n)
    requires forall k :: 0 <= k < |sleeps| ==> JitterOk(base, jitter(k)) && sleeps[k] == Sleep(base, k, jitter(k))
    ensures forall k :: 0 <= k < |sleeps| - 1 ==> sleeps[k] < sleeps[k + 1]
    ensures Sum(sleeps) <= Bound(base, n - 1)
  {
    RunIsIdeal(base, n, sleeps, jitter);
    hide Sleep, Ideal, Fits, JitterOk, Pow2, Sum, Bound;
    forall k | 0 <= k < |sleeps| - 1
      ensures sleeps[k] < sleeps[k + 1]
    {
      WaitsGrow(base, k, jitter(k), jitter(k + 1));
    }
    TotalWait(base, sleeps, jitter);
    BoundGrows(base, |sleeps|, n - 1);
  }

  /** Outside that range the waits are wrong: with a second as base, the 35th wait
      wraps around to a negative duration, which a timer does not wait at all. */
  lemma BackoffOverflows()
    ensures Sleep(1_000_000_000, 34, 0) < 0 < Ideal(1_000_000_000, 34, 0)
  {
    assert Pow2(8) == 256;
    assert Pow2(16) == 65536;
    assert Pow2(24) == 0x100_0000;
    assert Pow2(32) == 0x1_0000_0000;
    assert Pow2(34) == 0x4_0000_0000;
  }
}
