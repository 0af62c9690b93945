/** The delay before a webhook delivery attempt, with 64-bit durations. */
module Retries {
  import opened Common

  const MIN64: int := -0x8000_0000_0000_0000
  const MAX64: int := 0x7fff_ffff_ffff_ffff

  /** Two's complement wrap of a product that may leave 64 bits. */
  function Wrap64(x: int): (w: int)
    ensures MIN64 <= w <= MAX64
    ensures MIN64 <= x <= MAX64 ==> w == x
  {
    (x + 0x8000_0000_0000_0000) % 0x1_0000_0000_0000_0000 - 0x8000_0000_0000_0000
  }

  datatype RetryPolicy = RetryPolicy(maxAttempts: int, initialDelay: Nanos, maximumDelay: Nanos)

  function Pow2(n: nat): nat {
    if n == 0 then 1 else 2 * Pow2(n - 1)
  }

  /** What the loop computes from a current delay and a number of doublings left. */
  function Doubled(delay: int, most: int, left: nat): int
    decreases left
  {
    if left == 0 then delay
    else
      var next := Wrap64(delay * 2);
      if next >= most then most else Doubled(next, most, left - 1)
  }

  function Attempts(attempt: int): nat {
    if attempt < 1 then 1 else attempt
  }

  method Delay(p: RetryPolicy, attempt: int) returns (delay: Nanos)
    ensures delay == Doubled(p.initialDelay, p.maximumDelay, Attempts(attempt) - 1)
  {
    var attempt' := attempt;
    if attempt' < 1 {
      attempt' := 1;
    }
    delay := p.initialDelay;
    var current := 1;
    while current < attempt'
      invariant 1 <= current <= attempt'
      invariant Doubled(delay, p.maximumDelay, attempt' - current)
             == Doubled(p.initialDelay, p.maximumDelay, attempt' - 1)
    {
      delay := Wrap64(delay * 2);
      if delay >= p.maximumDelay {
        return p.maximumDelay;
      }
      current := current + 1;
    }
  }

  /** The promised back-off: doubling from the initial delay up to the maximum. */
  function Ideal(p: RetryPolicy, attempt: int): Nanos {
    var d := p.initialDelay * Pow2(Attempts(attempt) - 1);
    if d < p.maximumDelay then d else p.maximumDelay
  }

  /** The first doubling of a positive delay that is not below the maximum. */
  function FirstAtLeast(delay: int, most: int): (first: int)
    requires delay > 0
    ensures most <= first && delay * 2 <= first
    decreases most - delay
  {
    if delay * 2 >= most then delay * 2 else FirstAtLeast(delay * 2, most)
  }

  /** What a caller can check: the initial delay does not exceed the maximum, and the doubling
      that reaches the maximum still fits 64 bits. */
  predicate Sound(p: RetryPolicy)
    requires p.initialDelay >= 0
  {
    && p.initialDelay <= p.maximumDelay
    && (p.initialDelay > 0 ==> FirstAtLeast(p.initialDelay, p.maximumDelay) <= MAX64)
  }

  lemma {:induction false} DoublingsAtZero(most: int, left: nat)
    requires most >= 0
    ensures Doubled(0, most, left) == 0
  {
    if left > 0 { DoublingsAtZero(most, left - 1); }
  }

  lemma {:induction false} PowGrows(n: nat)
    ensures Pow2(n) >= 1
  {
    if n > 0 { PowGrows(n - 1); }
  }

  function Times2(delay: int, n: nat): int
    decreases n
  {
    if n == 0 then delay else Times2(delay * 2, n - 1)
  }

  lemma {:induction false} Times2IsPower(delay: int, n: nat)
    ensures Times2(delay, n) == delay * Pow2(n)
    decreases n
  {
    if n > 0 {
      Times2IsPower(delay * 2, n - 1);
    }
  }

  lemma {:induction false} Times2Grows(delay: int, n: nat)
    requires delay >= 0
    ensures Times2(delay, n) >= delay
    decreases n
  {
    if n > 0 {
      Times2Grows(delay * 2, n - 1);
    }
  }

  lemma {:induction false} DoublingsFit(delay: int, most: int, left: nat)
    requires 0 < delay <= most && FirstAtLeast(delay, most) <= MAX64
    ensures Doubled(delay, most, left) == if Times2(delay, left) < most then Times2(delay, left) else most
    decreases left
  {
    if left > 0 {
      Times2Grows(delay * 2, left - 1);
      assert Wrap64(delay * 2) == delay * 2;
      if delay * 2 < most {
        DoublingsFit(delay * 2, most, left - 1);
      }
    }
  }

  lemma {:induction false} OverflowShows(delay: int, most: int) returns (left: nat)
    requires 0 < delay <= most <= MAX64 && FirstAtLeast(delay, most) > MAX64
    ensures left > 0 && Doubled(delay, most, left) < 0
    decreases most - delay
  {
    if delay * 2 >= most {
      left := 1;
      assert Wrap64(delay * 2) == delay * 2 - 0x1_0000_0000_0000_0000;
      assert Doubled(Wrap64(delay * 2), most, 0) == Wrap64(delay * 2);
    } else {
      left := OverflowShows(delay * 2, most);
      left := left + 1;
    }
  }

  lemma IdealAtOne(p: RetryPolicy)
    ensures Ideal(p, 1) == if p.initialDelay < p.maximumDelay then p.initialDelay else p.maximumDelay
  {
    assert Pow2(0) == 1;
  }

  lemma SoundDelays(p: RetryPolicy, attempt: int)
    requires 0 <= p.initialDelay && Sound(p)
    ensures Doubled(p.initialDelay, p.maximumDelay, Attempts(attempt) - 1) == Ideal(p, attempt)
  {
    if p.initialDelay == 0 {
      DoublingsAtZero(p.maximumDelay, Attempts(attempt) - 1);
    } else {
      DoublingsFit(p.initialDelay, p.maximumDelay, Attempts(attempt) - 1);
      Times2IsPower(p.initialDelay, Attempts(attempt) - 1);
    }
  }

  /** For non-negative 64-bit delays the promise is kept for every attempt if and only if the
      caller's check passes. */
  lemma CorrectExactlyWhenSound(p: RetryPolicy)
    requires 0 <= p.initialDelay <= MAX64 && 0 <= p.maximumDelay <= MAX64
    ensures Sound(p) <==>
            forall attempt: int :: Doubled(p.initialDelay, p.maximumDelay, Attempts(attempt) - 1) == Ideal(p, attempt)
  {
    if Sound(p) {
      forall attempt: int
        ensures Doubled(p.initialDelay, p.maximumDelay, Attempts(attempt) - 1) == Ideal(p, attempt)
      {
        SoundDelays(p, attempt);
      }
    } else if p.initialDelay > p.maximumDelay {
      IdealAtOne(p);
      assert Doubled(p.initialDelay, p.maximumDelay, Attempts(1) - 1) != Ideal(p, 1);
    } else {
      var left := OverflowShows(p.initialDelay, p.maximumDelay);
      PowGrows(left);
      assert p.initialDelay * Pow2(left) >= 0;
      assert Doubled(p.initialDelay, p.maximumDelay, Attempts(left + 1) - 1) != Ideal(p, left + 1);
    }
  }

  /** A maximum below 2^62 is always sound; so is one of 2^62 with a smaller initial delay. */
  lemma SmallMaximumIsSound(delay: int, most: int)
    requires 0 < delay <= most <= 0x4000_0000_0000_0000 && delay < 0x4000_0000_0000_0000
    ensures FirstAtLeast(delay, most) <= MAX64
    decreases most - delay
  {
    if delay * 2 < most { SmallMaximumIsSound(delay * 2, most); }
  }

  /** At the corner itself the second delay is negative. */
  lemma LargestCornerFails()
    ensures Doubled(0x4000_0000_0000_0000, 0x4000_0000_0000_0000, 1) == MIN64
  {
    assert Wrap64(0x4000_0000_0000_0000 * 2) == MIN64;
    assert Doubled(MIN64, 0x4000_0000_0000_0000, 0) == MIN64;
  }

  lemma {:induction false} Times2Steps(delay: int, n: nat)
    ensures Times2(delay, n + 1) == 2 * Times2(delay, n)
    decreases n
  {
    if n > 0 { Times2Steps(delay * 2, n - 1); }
  }

  /** The delays of a sound policy never shrink from one attempt to the next, and stay
      within the maximum. */
  lemma Monotone(p: RetryPolicy, attempt: int)
    requires 0 <= p.initialDelay && Sound(p)
    ensures 0 <= Doubled(p.initialDelay, p.maximumDelay, Attempts(attempt) - 1)
              <= Doubled(p.initialDelay, p.maximumDelay, Attempts(attempt + 1) - 1)
              <= p.maximumDelay
  {
    var n := Attempts(attempt) - 1;
    if p.initialDelay == 0 {
      DoublingsAtZero(p.maximumDelay, n);
      DoublingsAtZero(p.maximumDelay, Attempts(attempt + 1) - 1);
    } else {
      DoublingsFit(p.initialDelay, p.maximumDelay, n);
      DoublingsFit(p.initialDelay, p.maximumDelay, n + 1);
      Times2Steps(p.initialDelay, n);
      Times2Grows(p.initialDelay, n);
    }
  }
}
