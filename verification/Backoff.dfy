/** Retry delays of the weather service, in nanoseconds. */
module Backoff {
  import opened Common

  const SECOND: int := 1_000_000_000
  const INITIAL_RETRY_DELAY: int := 5 * SECOND
  const MAXIMUM_RETRY_DELAY: int := 300 * SECOND
  const WORD: int := 0x1_0000_0000_0000_0000

  /** Machine integers: every operation below is checked to stay in range. */
  newtype Duration = x: int | -0x8000_0000_0000_0000 <= x < 0x8000_0000_0000_0000
  newtype Word = x: int | 0 <= x < 0x1_0000_0000_0000_0000

  function Pow2(n: nat): nat {
    if n == 0 then 1 else 2 * Pow2(n - 1)
  }

  /** The delay before jitter after the given number of consecutive failures. */
  function Base(failures: nat): int {
    Min(INITIAL_RETRY_DELAY * Pow2(Max(failures, 1) - 1), MAXIMUM_RETRY_DELAY)
  }

  /** The delay after jitter; draw is the random word, absent when the source of randomness fails. */
  function Jittered(delay: int, draw: Option<Word>): int
    requires delay >= 0
  {
    match draw
    case None => delay
    case Some(word) =>
      Min(delay * 80 / 100 + word as int % (delay * 40 / 100 + 1), MAXIMUM_RETRY_DELAY)
  }

  /** A refresh error; a provider may name its own delay. */
  datatype Failure = Failure(code: int, providerDelay: Option<int>)

  function RetryDelay(failure: Failure, failures: nat, draw: Option<Word>): int {
    if failure.providerDelay.Some? && failure.providerDelay.value > 0 then failure.providerDelay.value
    else Jittered(Base(failures), draw)
  }

  /** Base delays double from 5 s and stay at 300 s from the seventh failure on. */
  lemma {:induction false} BaseProgression(failures: nat)
    ensures INITIAL_RETRY_DELAY <= Base(failures) <= MAXIMUM_RETRY_DELAY
    ensures 1 <= failures ==> Base(failures + 1) == Min(2 * Base(failures), MAXIMUM_RETRY_DELAY)
    ensures failures >= 7 <==> Base(failures) == MAXIMUM_RETRY_DELAY
  {
    if failures > 7 {
      BaseProgression(failures - 1);
    } else {
      assert Pow2(0) == 1 && Pow2(1) == 2 && Pow2(2) == 4 && Pow2(3) == 8;
      assert Pow2(4) == 16 && Pow2(5) == 32 && Pow2(6) == 64 && Pow2(7) == 128;
    }
  }

  /**
   * Without a provider delay the retry falls in [0.8 base, 1.2 base] and never beyond 300 s, in
   * exact arithmetic and for every random word.
   */
  lemma JitterBounds(failure: Failure, failures: nat, draw: Option<Word>)
    requires failure.providerDelay.None? || failure.providerDelay.value <= 0
    ensures var base, delay := Base(failures), RetryDelay(failure, failures, draw);
            4 * base <= 5 * delay <= 6 * base && delay <= MAXIMUM_RETRY_DELAY
  {
    BaseProgression(failures);
    BaseDividesByFive(failures);
    JitteredBounds(Base(failures) / 5, draw);
  }

  lemma JitteredBounds(fifth: nat, draw: Option<Word>)
    requires 5 * fifth <= MAXIMUM_RETRY_DELAY
    ensures 4 * fifth <= Jittered(5 * fifth, draw) <= 6 * fifth
    ensures Jittered(5 * fifth, draw) <= MAXIMUM_RETRY_DELAY
  {
    assert 5 * fifth * 80 / 100 == 4 * fifth;
    assert 5 * fifth * 40 / 100 == 2 * fifth;
  }

  lemma {:induction false} BaseDividesByFive(failures: nat)
    ensures Base(failures) % 5 == 0
  {
    if failures <= 1 {
    } else {
      BaseProgression(failures - 1);
      BaseDividesByFive(failures - 1);
    }
  }

  lemma RetryDelayPositive(failure: Failure, failures: nat, draw: Option<Word>)
    ensures RetryDelay(failure, failures, draw) > 0
  {
    BaseProgression(failures);
    if failure.providerDelay.None? || failure.providerDelay.value <= 0 {
      JitterBounds(failure, failures, draw);
    }
  }

  /** The doubling loop of retryDelay on machine integers; it stops at the cap, so it cannot overflow. */
  method BackoffBase(failures: Word) returns (delay: Duration)
    ensures delay as int == Base(failures as int)
  {
    var target := if failures == 0 then 1 else failures;
    delay := INITIAL_RETRY_DELAY as Duration;
    var count: Word := 1;
    while count < target && delay < MAXIMUM_RETRY_DELAY as Duration
      invariant 1 <= count <= target
      invariant INITIAL_RETRY_DELAY <= delay as int < 2 * MAXIMUM_RETRY_DELAY
      invariant delay as int == INITIAL_RETRY_DELAY * Pow2(count as int - 1)
    {
      delay := delay * 2;
      count := count + 1;
    }
    Pow2Grows(count as int - 1, target as int - 1);
    if delay > MAXIMUM_RETRY_DELAY as Duration {
      delay := MAXIMUM_RETRY_DELAY as Duration;
    }
  }

  lemma {:induction false} Pow2Grows(m: nat, n: nat)
    requires m <= n
    ensures Pow2(m) <= Pow2(n)
  {
    if m < n {
      Pow2Grows(m, n - 1);
    }
  }

  /** jitterDelay on machine integers: no intermediate product or sum leaves 64 bits. */
  method JitterDelay(delay: Duration, draw: Option<Word>) returns (r: Duration)
    requires 0 <= delay as int <= MAXIMUM_RETRY_DELAY
    ensures r as int == Jittered(delay as int, draw)
  {
    var minimum := delay * 80 / 100;
    var span := delay * 40 / 100;
    if draw.None? {
      return delay;
    }
    r := minimum + (draw.value % (span as Word + 1)) as Duration;
    if r > MAXIMUM_RETRY_DELAY as Duration {
      r := MAXIMUM_RETRY_DELAY as Duration;
    }
  }
}
