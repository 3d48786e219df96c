/** The doubling delays of the admission retries and of the watch's reconnections, and their jitter. */
module Backoff {
  import opened Options
  import opened Deadlines

  const NANOS_PER_MILLI: nat := 1_000_000

  /** Doubling stops at the longest duration, and at the configured maximum. */
  function Doubled(delay: nat, max: nat): nat {
    Min(Min(2 * delay, DURATION_MAX), max)
  }

  function Times(n: nat, initial: nat, max: nat): nat {
    if n == 0 then initial else Doubled(Times(n - 1, initial, max), max)
  }

  lemma DoublingCaps(delay: nat, max: nat)
    requires max <= DURATION_MAX
    ensures Doubled(Min(delay, max), max) == Min(2 * delay, max)
  {
  }

  lemma TwiceAsMuch(a: nat, b: nat)
    ensures a * (2 * b) == 2 * (a * b)
  {
  }

  /** After `n` doublings the delay is the initial one times two to the `n`, up to the maximum. */
  lemma {:induction false} DelayIsGeometric(n: nat, initial: nat, max: nat)
    requires initial <= max <= DURATION_MAX
    ensures Times(n, initial, max) == Min(initial * Pow2(n), max)
  {
    if n > 0 {
      DelayIsGeometric(n - 1, initial, max);
      DoublingCaps(initial * Pow2(n - 1), max);
      assert initial * Pow2(n) == 2 * (initial * Pow2(n - 1)) by { TwiceAsMuch(initial, Pow2(n - 1)); }
    }
  }

  // ---------------------------------------------------------------- jitter

  /** The wait in milliseconds before the overflow check, and the largest one any draw gives. */
  function Wait(millis: nat, draw: nat): nat
    requires millis >= 2
  {
    millis - millis / 2 / 2 + draw % (millis / 2)
  }

  function LargestWait(millis: nat): nat
    requires millis >= 2
  {
    millis - millis / 2 / 2 + millis / 2 - 1
  }

  lemma LargestWaitIsReached(millis: nat, draw: nat)
    requires millis >= 2
    ensures Wait(millis, draw) <= LargestWait(millis) && Wait(millis, millis / 2 - 1) == LargestWait(millis)
  {
    var spread := millis / 2;
    assert 0 <= draw % spread < spread && (spread - 1) % spread == spread - 1;
  }

  /** The jittered wait; `None` when the sum of milliseconds leaves the 64-bit range. */
  function Jitter(delay: nat, draw: nat): Option<nat> {
    var millis := Min(delay / NANOS_PER_MILLI, U64_MAX);
    if millis / 2 == 0 then Some(delay)
    else
      var wait := Wait(millis, draw);
      if wait <= U64_MAX then Some(wait * NANOS_PER_MILLI) else None
  }

  /**
   A wait of at least two milliseconds is spread over half of it around the delay: from three quarters
   of its whole milliseconds up to, and not including, five quarters. A shorter one is left as it is.
   */
  lemma JitterStaysNearTheDelay(delay: nat, draw: nat)
    requires Jitter(delay, draw).Some?
    ensures
      var millis := Min(delay / NANOS_PER_MILLI, U64_MAX);
      var wait := Jitter(delay, draw).value;
      if millis < 2 then wait == delay
      else 3 * millis * NANOS_PER_MILLI <= 4 * wait < 5 * millis * NANOS_PER_MILLI
  {
    var millis := Min(delay / NANOS_PER_MILLI, U64_MAX);
    if millis >= 2 {
      var wait := Wait(millis, draw);
      assert 3 * millis <= 4 * wait < 5 * millis by { LargestWaitIsReached(millis, draw); }
      assert Jitter(delay, draw).value == wait * NANOS_PER_MILLI;
    }
  }

  /** The longest delay, in whole milliseconds, that no draw can push past 64 bits. */
  const LONGEST_SAFE_MILLIS: nat := 14_757_395_258_967_641_293

  /** Four fifths of the 64-bit range: the largest wait passes it just above this many milliseconds. */
  lemma LargestWaitFits(millis: nat)
    requires millis >= 2
    ensures LargestWait(millis) <= U64_MAX <==> millis <= LONGEST_SAFE_MILLIS
  {
    var quarter, rest := millis / 4, millis % 4;
    assert millis / 2 == 2 * quarter + rest / 2 && millis / 2 / 2 == quarter;
    assert LargestWait(millis) == 5 * quarter + rest + rest / 2 - 1;
  }

  /** No draw overflows exactly when the delay is at most four fifths of 64 bits of milliseconds. */
  lemma JitterOverflows(delay: nat)
    ensures
      (forall draw: nat :: Jitter(delay, draw).Some?) <==>
      Min(delay / NANOS_PER_MILLI, U64_MAX) <= LONGEST_SAFE_MILLIS
  {
    var millis := Min(delay / NANOS_PER_MILLI, U64_MAX);
    if millis >= 2 {
      LargestWaitFits(millis);
      LargestWaitIsReached(millis, 0);
      assert Jitter(delay, millis / 2 - 1).Some? <==> LargestWait(millis) <= U64_MAX;
      forall draw: nat | LargestWait(millis) <= U64_MAX ensures Jitter(delay, draw).Some? {
        LargestWaitIsReached(millis, draw);
      }
    }
  }

  /** One millisecond more overflows, for a draw of half the delay less one; the delay itself is a valid duration. */
  lemma OneMoreMillisecondOverflows()
    ensures
      var millis := LONGEST_SAFE_MILLIS + 1;
      && millis * NANOS_PER_MILLI <= DURATION_MAX
      && Jitter(millis * NANOS_PER_MILLI, millis / 2 - 1).None?
      && Jitter(LONGEST_SAFE_MILLIS * NANOS_PER_MILLI, millis / 2 - 1).Some?
  {
    var millis := LONGEST_SAFE_MILLIS + 1;
    LargestWaitFits(millis);
    LargestWaitIsReached(millis, 0);
    JitterOverflows(LONGEST_SAFE_MILLIS * NANOS_PER_MILLI);
  }

  // ---------------------------------------------------------------- admission retries

  datatype RetryConfig = RetryConfig(timeout: nat, initial: nat, max: nat)

  /** A retry sleep starts at `startedAt`; the clock next reads `wokeAt` when it is found complete. */
  datatype Sleep = Sleep(startedAt: nat, wokeAt: nat)

  function Total(n: nat, initial: nat, max: nat): nat {
    if n == 0 then 0 else Total(n - 1, initial, max) + Times(n - 1, initial, max)
  }

  /**
   The retries of one admission that began at `start`: each waits out the current delay, which then
   doubles. A sleep that reaches the admission deadline times the admission out, even on a tie. The
   completed sleeps add up to less than the admission timeout, and `n` of them took the first `n` delays.
   */
  method RetrySleeps(c: RetryConfig, start: nat, sleeps: seq<Sleep>) returns (completed: nat, slept: nat, timedOut: bool)
    requires c.initial <= c.max
    requires forall i :: 0 <= i < |sleeps| ==> start <= sleeps[i].startedAt
    requires forall i :: 0 < i < |sleeps| ==> sleeps[i - 1].wokeAt <= sleeps[i].startedAt
    requires forall i :: 0 <= i < |sleeps| ==>
               sleeps[i].startedAt + Times(i, c.initial, c.max) <= sleeps[i].wokeAt
    ensures completed <= |sleeps| && (timedOut <==> completed < |sleeps|)
    ensures slept == Total(completed, c.initial, c.max)
    ensures completed > 0 ==> slept < c.timeout
    ensures forall i :: 0 <= i < completed ==> sleeps[i].wokeAt < start + c.timeout
    ensures timedOut ==> start + c.timeout <= sleeps[completed].wokeAt
  {
    var deadline, delay := start + c.timeout, c.initial;
    completed, slept := 0, 0;
    while completed < |sleeps|
      invariant completed <= |sleeps|
      invariant delay == Times(completed, c.initial, c.max)
      invariant slept == Total(completed, c.initial, c.max)
      invariant forall i :: 0 <= i < completed ==> sleeps[i].wokeAt < deadline
      invariant completed > 0 ==> start + slept <= sleeps[completed - 1].wokeAt
    {
      if sleeps[completed].wokeAt >= deadline {
        return completed, slept, true;
      }
      slept := slept + delay;
      delay := Doubled(delay, c.max);
      completed := completed + 1;
    }
    timedOut := false;
  }
}
