/** Retry with exponential backoff and equal jitter: middleware/retry.go.
    Durations are nanoseconds. */
module Retry {
  import opened Errors
  import opened Options

  const BASE_DELAY: int := 500_000_000
  const MAX_DELAY: int := 30_000_000_000
  const INT64_LIMIT: int := 0x8000_0000_0000_0000

  function Pow2(n: nat): int {
    if n == 0 then 1 else 2 * Pow2(n - 1)
  }

  /** The uncapped delay base * 2^attempt. */
  function Exponential(attempt: nat): int {
    BASE_DELAY * Pow2(attempt)
  }

  /** The documented cap: the exponential delay, at most MAX_DELAY. */
  function Cap(attempt: nat): int {
    if Exponential(attempt) > MAX_DELAY then MAX_DELAY else Exponential(attempt)
  }

  /** backoff. `draw` is the random source, reduced to [0, half] as Int63n does.
      `overflow` is the value the platform gives to the float-to-int64 conversion
      when the delay does not fit; the language leaves it open. */
  function Backoff(attempt: nat, hint: int, draw: nat, overflow: int): int {
    if hint > 0 then
      if hint > MAX_RETRY_AFTER then MAX_RETRY_AFTER else hint
    else
      var converted := if Exponential(attempt) < INT64_LIMIT then Exponential(attempt) else overflow;
      var cap := if converted > MAX_DELAY then MAX_DELAY else converted;
      if cap <= 1 then cap else cap / 2 + draw % (cap / 2 + 1)
  }

  lemma {:induction false} Pow2Mono(a: nat, b: nat)
    requires a <= b
    ensures 1 <= Pow2(a) <= Pow2(b)
  {
    if a < b {
      Pow2Mono(a, b - 1);
    } else if a > 0 {
      Pow2Mono(a - 1, a - 1);
    }
  }

  /** The caps never decrease from one attempt to a later one. */
  lemma CapMono(a: nat, b: nat)
    requires a <= b
    ensures BASE_DELAY <= Cap(a) <= Cap(b) <= MAX_DELAY
  {
    Pow2Mono(a, b);
  }

  /** With the default base the delay fits an int64 up to attempt 34. */
  lemma FitsUpTo34(attempt: nat)
    ensures Exponential(attempt) < INT64_LIMIT <==> attempt <= 34
  {
    assert Pow2(10) == 1024;
    assert Pow2(20) == 1024 * Pow2(10);
    assert Pow2(30) == 1024 * Pow2(20);
    assert Pow2(34) == 17179869184;
    if attempt <= 34 {
      Pow2Mono(attempt, 34);
    } else {
      Pow2Mono(35, attempt);
    }
  }

  /** The documented contract of an unhinted wait: between half the cap and the cap. */
  predicate EqualJitter(attempt: nat, wait: int) {
    Cap(attempt) / 2 <= wait <= Cap(attempt)
  }

  /** The contract holds on every platform and for every draw exactly for the
      attempts up to 34; from attempt 35 on it depends on how an out-of-range
      conversion comes out. */
  lemma JitterExactly(attempt: nat)
    ensures (forall hint, draw, overflow | hint <= 0 :: EqualJitter(attempt, Backoff(attempt, hint, draw, overflow)))
      <==> attempt <= 34
  {
    FitsUpTo34(attempt);
    CapMono(attempt, attempt);
    if attempt <= 34 {
      forall hint, draw: nat, overflow | hint <= 0
        ensures EqualJitter(attempt, Backoff(attempt, hint, draw, overflow))
      {
        assert 0 <= draw % (Cap(attempt) / 2 + 1) <= Cap(attempt) / 2;
      }
    } else {
      assert !EqualJitter(attempt, Backoff(attempt, 0, 0, -INT64_LIMIT));
    }
  }

  /** On a platform that converts to the least int64, an unhinted wait from attempt
      35 on is negative, which the sleep treats as no wait at all. */
  lemma NoWaitAfterOverflow(attempt: nat, draw: nat)
    requires attempt > 34
    ensures Backoff(attempt, 0, draw, -INT64_LIMIT) < 0
  {
    FitsUpTo34(attempt);
  }

  /** What ends a retry loop: success, or an error not marked retryable. */
  predicate Decisive<T>(a: Outcome<T>) {
    a.Ok? || !IsRetryable(a.err)
  }

  /** The surroundings of one retry loop: what the k-th upstream call answers, what
      the k-th draw is, how the k-th conversion overflows, and whether the context
      ends during the k-th sleep. */
  datatype World<T> = World(answer: nat -> Outcome<T>, draw: nat -> nat, overflow: nat -> int, cancelled: nat -> bool)

  function WaitAfter<T>(w: World<T>, k: nat): int
    requires w.answer(k).Fail?
  {
    Backoff(k, RetryAfter(w.answer(k).err), w.draw(k), w.overflow(k))
  }

  datatype Ended<+T> = Answered(outcome: Outcome<T>) | Interrupted

  /** The context ends during the sleep after call k. */
  predicate BreaksOff<T>(w: World<T>, k: nat) {
    var a := w.answer(k);
    a.Fail? && IsRetryable(a.err) && w.cancelled(k) && WaitAfter(w, k) > 0
  }

  /** The last call of a loop that has come to call k: the first decisive answer, the first
      interrupted sleep, or call maxRetries. */
  function Last<T>(maxRetries: nat, w: World<T>, k: nat): (n: nat)
    requires k <= maxRetries
    ensures k <= n <= maxRetries
    ensures forall j | k <= j < n :: !Decisive(w.answer(j)) && !BreaksOff(w, j)
    ensures n < maxRetries ==> Decisive(w.answer(n)) || BreaksOff(w, n)
    decreases maxRetries - k
  {
    if k == maxRetries || Decisive(w.answer(k)) || BreaksOff(w, k) then k else Last(maxRetries, w, k + 1)
  }

  function Calls<T>(maxRetries: nat, w: World<T>): nat {
    Last(maxRetries, w, 0) + 1
  }

  /** What a whole loop gives. */
  function Ending<T>(maxRetries: nat, w: World<T>): Ended<T> {
    var n := Last(maxRetries, w, 0);
    if n < maxRetries && !Decisive(w.answer(n)) then Interrupted else Answered(w.answer(n))
  }

  /** A loop no sleep of which is interrupted before its first decisive answer returns that
      answer, wherever it comes. */
  lemma FirstDecisive<T>(maxRetries: nat, w: World<T>, n: nat)
    requires n <= maxRetries && (Decisive(w.answer(n)) || n == maxRetries)
    requires forall j | 0 <= j < n :: !Decisive(w.answer(j)) && !(w.cancelled(j) && WaitAfter(w, j) > 0)
    ensures Ending(maxRetries, w) == Answered(w.answer(n)) && Calls(maxRetries, w) == n + 1
  {
    FirstFrom(maxRetries, w, 0, n);
  }

  lemma {:induction false} FirstFrom<T>(maxRetries: nat, w: World<T>, k: nat, n: nat)
    requires k <= n <= maxRetries && (Decisive(w.answer(n)) || n == maxRetries)
    requires forall j | k <= j < n :: !Decisive(w.answer(j)) && !(w.cancelled(j) && WaitAfter(w, j) > 0)
    ensures Last(maxRetries, w, k) == n
    decreases n - k
  {
    if k < n {
      FirstFrom(maxRetries, w, k + 1, n);
    }
  }

  /** retryValue and the loops of Complete, Stream and Embed. */
  method RetryValue<T>(maxRetries: nat, w: World<T>) returns (r: Ended<T>, calls: nat, waits: seq<int>)
    ensures r == Ending(maxRetries, w) && calls == Calls(maxRetries, w)
    ensures |waits| == if r.Answered? then calls - 1 else calls
    ensures forall k | 0 <= k < |waits| :: w.answer(k).Fail? && waits[k] == WaitAfter(w, k)
  {
    waits := [];
    calls := 0;
    var last := w.answer(0);
    for attempt := 0 to maxRetries + 1
      invariant calls == attempt && |waits| == (if attempt <= maxRetries then attempt else maxRetries)
      invariant attempt > 0 ==> last == w.answer(attempt - 1)
      invariant attempt <= maxRetries ==> Last(maxRetries, w, 0) == Last(maxRetries, w, attempt)
      invariant attempt > maxRetries ==> Last(maxRetries, w, 0) == maxRetries && !Decisive(last)
      invariant forall k | 0 <= k < |waits| :: w.answer(k).Fail? && waits[k] == WaitAfter(w, k)
    {
      var a := w.answer(attempt);
      calls := calls + 1;
      if a.Ok? {
        return Answered(a), calls, waits;
      }
      last := a;
      if !IsRetryable(a.err) {
        return Answered(a), calls, waits;
      }
      if attempt < maxRetries {
        var d := WaitAfter(w, attempt);
        waits := waits + [d];
        if w.cancelled(attempt) && d > 0 {
          return Interrupted, calls, waits;
        }
      }
    }
    return Answered(last), calls, waits;
  }

  // ------------------------------------------------------------------- total sleeps

  /** The time slept: a wait that is not positive is no sleep. */
  function Slept(waits: seq<int>): nat {
    if waits == [] then 0
    else
      var d := waits[|waits| - 1];
      Slept(waits[..|waits| - 1]) + if d > 0 then d else 0
  }

  function Halves(n: nat): int {
    if n == 0 then 0 else Halves(n - 1) + Cap(n - 1) / 2
  }

  /** No loop, however long, sleeps more than two minutes for each wait. */
  lemma {:induction false} SleepAtMost<T>(w: World<T>, waits: seq<int>)
    requires forall k | 0 <= k < |waits| :: w.answer(k).Fail? && waits[k] == WaitAfter(w, k)
    ensures Slept(waits) <= |waits| * MAX_RETRY_AFTER
  {
    if waits != [] {
      SleepAtMost(w, waits[..|waits| - 1]);
    }
  }

  /** Up to 35 waits without hints last at least the sum of the half caps. */
  lemma {:induction false} SleepAtLeast<T>(w: World<T>, waits: seq<int>)
    requires |waits| <= 35
    requires forall k | 0 <= k < |waits| :: w.answer(k).Fail? && waits[k] == WaitAfter(w, k) && RetryAfter(w.answer(k).err) <= 0
    ensures Halves(|waits|) <= Slept(waits)
  {
    if waits != [] {
      var k := |waits| - 1;
      SleepAtLeast(w, waits[..k]);
      WaitBounds(k, RetryAfter(w.answer(k).err), w.draw(k), w.overflow(k));
    }
  }

  lemma WaitBounds(attempt: nat, hint: int, draw: nat, overflow: int)
    requires attempt <= 34
    ensures 0 < Backoff(attempt, hint, draw, overflow) <= MAX_RETRY_AFTER
    ensures hint <= 0 ==> EqualJitter(attempt, Backoff(attempt, hint, draw, overflow))
  {
    JitterExactly(attempt);
    CapMono(attempt, attempt);
    if hint <= 0 {
      assert EqualJitter(attempt, Backoff(attempt, hint, draw, overflow));
    }
  }

  // ------------------------------------------------------------- what a wait is for sure

  /** The caps start at half a second and double up to thirty seconds. */
  lemma CapDoubles(attempt: nat)
    ensures Cap(0) == 500_000_000
    ensures Cap(attempt + 1) == if 2 * Cap(attempt) > 30_000_000_000 then 30_000_000_000 else 2 * Cap(attempt)
  {
    Pow2Mono(0, attempt);
    assert Exponential(attempt + 1) == 2 * Exponential(attempt);
  }

  /** Every wait between half the cap and the cap does occur. */
  lemma JitterReaches(attempt: nat, wait: int, overflow: int) returns (draw: nat)
    requires attempt <= 34 && EqualJitter(attempt, wait)
    ensures Backoff(attempt, 0, draw, overflow) == wait
  {
    CapMono(attempt, attempt);
    CapEven(attempt);
    draw := wait - Cap(attempt) / 2;
    UnhintedWait(attempt, draw, overflow);
    SmallRemainder(draw, Cap(attempt) / 2 + 1);
  }

  lemma UnhintedWait(attempt: nat, draw: nat, overflow: int)
    requires attempt <= 34
    ensures Backoff(attempt, 0, draw, overflow) == Cap(attempt) / 2 + draw % (Cap(attempt) / 2 + 1)
  {
    FitsUpTo34(attempt);
    CapMono(attempt, attempt);
  }

  lemma SmallRemainder(x: nat, m: nat)
    requires x < m
    ensures x % m == x
  {
  }

  lemma {:induction false} CapEven(attempt: nat)
    ensures Cap(attempt) % 2 == 0
  {
    if attempt > 0 {
      CapDoubles(attempt - 1);
    }
  }

  /** A hint is waited as it is, but for two minutes at most, whatever the attempt. */
  lemma HintWaited(attempt: nat, hint: int, draw: nat, overflow: int)
    requires hint > 0
    ensures Backoff(attempt, hint, draw, overflow) == if hint <= 120_000_000_000 then hint else 120_000_000_000
  {
  }

  /** So after a response of status 429 with a Retry-After in seconds exactly that is waited,
      however the error is wrapped. */
  lemma RetryAfterWaited<T>(w: World<T>, k: nat, secs: int, until: Option<int>)
    requires w.answer(k).Fail? && Find(w.answer(k).err) == Some(Parsed(429, Some(secs), until)) && 0 < secs
    ensures WaitAfter(w, k) == if secs <= 120 then secs * 1_000_000_000 else 120_000_000_000
  {
    HintClasses(429, Some(secs), until);
    HintWaited(k, RetryAfter(w.answer(k).err), w.draw(k), w.overflow(k));
  }

  /** A loop whose sleep after call n is the first to be interrupted makes no further call. */
  lemma InterruptionEnds<T>(maxRetries: nat, w: World<T>, n: nat)
    requires n < maxRetries && w.answer(n).Fail? && IsRetryable(w.answer(n).err) && w.cancelled(n) && WaitAfter(w, n) > 0
    requires forall j | 0 <= j < n :: !Decisive(w.answer(j)) && !(w.cancelled(j) && WaitAfter(w, j) > 0)
    ensures Ending(maxRetries, w) == Interrupted && Calls(maxRetries, w) == n + 1
  {
    InterruptedFrom(maxRetries, w, 0, n);
  }

  lemma {:induction false} InterruptedFrom<T>(maxRetries: nat, w: World<T>, k: nat, n: nat)
    requires k <= n < maxRetries && BreaksOff(w, n)
    requires forall j | k <= j < n :: !Decisive(w.answer(j)) && !(w.cancelled(j) && WaitAfter(w, j) > 0)
    ensures Last(maxRetries, w, k) == n
    decreases n - k
  {
    if k < n {
      InterruptedFrom(maxRetries, w, k + 1, n);
    }
  }
}
