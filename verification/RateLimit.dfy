/** The continuous token bucket of middleware/ratelimit.go.

    Time is an integer number of nanoseconds. Tokens are scaled by 10^9, so that
    a refill of `elapsed` nanoseconds is exactly `elapsed * rps` units and one
    request costs `SECOND` units. Every call of tryAcquire holds the mutex, so
    any interleaving of callers is a sequence of atomic calls at non-decreasing
    clock readings.
 */
module RateLimit {
  import opened Arithmetic
  import Sequences

  const SECOND: int := 1_000_000_000

  datatype Bucket = Bucket(rps: int, tokens: int, lastCheck: int) {
    predicate Valid() {
      rps > 0 && 0 <= tokens <= Capacity()
    }

    function Capacity(): int {
      rps * SECOND
    }

    /** The balance after the refill at `now`, before any token is taken. */
    function Refilled(now: int): int {
      var t := tokens + (now - lastCheck) * rps;
      if t > Capacity() then Capacity() else t
    }

    /** Whether a call at `now` takes a token. */
    predicate Pays(now: int) {
      Refilled(now) >= SECOND
    }

    /** The bucket after a call at `now`. */
    function After(now: int): Bucket {
      Bucket(rps, if Pays(now) then Refilled(now) - SECOND else Refilled(now), now)
    }

    /** The duration a call at `now` returns; 0 means "proceed". */
    function Wait(now: int): int
      requires rps > 0
    {
      if Pays(now) then 0 else (SECOND - Refilled(now)) / rps
    }
  }

  function Full(rps: int, now: int): Bucket {
    Bucket(rps, rps * SECOND, now)
  }

  predicate Ascending(from: int, times: seq<int>)
    decreases times
  {
    times == [] || (from <= times[0] && Ascending(times[0], times[1..]))
  }

  /** Calls with a clock reading in [s, t] that take a token. */
  function Paid(b: Bucket, times: seq<int>, s: int, t: int): nat
    decreases times
  {
    if times == [] then 0 else
      (if s <= times[0] <= t && b.Pays(times[0]) then 1 else 0) + Paid(b.After(times[0]), times[1..], s, t)
  }

  /** Calls with a clock reading in [s, t] that are told to proceed. */
  function Granted(b: Bucket, times: seq<int>, s: int, t: int): nat
    requires b.rps > 0
    decreases times
  {
    if times == [] then 0 else
      (if s <= times[0] <= t && b.Wait(times[0]) == 0 then 1 else 0) + Granted(b.After(times[0]), times[1..], s, t)
  }

  // ---------------------------------------------------------------- one call

  /** Tokens never leave [0, capacity]. */
  lemma AfterValid(b: Bucket, now: int)
    requires b.Valid() && b.lastCheck <= now
    ensures b.After(now).Valid() && 0 <= b.Refilled(now) <= b.Capacity()
  {
    MulMono(0, now - b.lastCheck, b.rps);
  }

  /** After a positive wait w at `now`, an uncontended retry d <= w nanoseconds
      later is told to wait exactly the remaining w - d: no earlier retry is let
      through and the one at w is. It takes a token exactly when the missing
      amount is a multiple of the rate; otherwise the truncated division lets it
      through unpaid. */
  lemma WaitIsLeast(b: Bucket, now: int, d: nat)
    requires b.Valid() && b.lastCheck <= now
    requires 0 < b.Wait(now) && d <= b.Wait(now)
    ensures b.After(now).Wait(now + d) == b.Wait(now) - d
    ensures d < b.Wait(now) ==> !b.After(now).Pays(now + d)
    ensures b.After(now).Pays(now + b.Wait(now)) <==> (SECOND - b.Refilled(now)) % b.rps == 0
  {
    var gap, r := SECOND - b.Refilled(now), b.rps;
    var w, rest := gap / r, gap % r;
    AfterValid(b, now);
    RefillShortOfOne(b.After(now), now, d, w, rest);
    RefillShortOfOne(b.After(now), now, w, w, rest);
    DivUnique(w - d, r, rest);
    DivUnique(0, r, rest);
    MulMono(if d < w then 1 else 0, w - d, r);
  }

  lemma RefillShortOfOne(b: Bucket, now: int, d: int, w: int, rest: int)
    requires b.rps > 0 && b.lastCheck == now && 0 <= d <= w && 0 <= rest < b.rps
    requires b.tokens == SECOND - (w * b.rps + rest) && b.tokens >= 0
    ensures SECOND - b.Refilled(now + d) == (w - d) * b.rps + rest
  {
    MulMono(0, w - d, b.rps);
    assert (w - d) * b.rps == w * b.rps - d * b.rps;
    assert b.tokens + (now + d - b.lastCheck) * b.rps == SECOND - (w - d) * b.rps - rest;
  }

  // ---------------------------------------------------------------- whole runs

  /** Over every run and every window [s, t], at most rps + rps*(t-s)/10^9
      tokens are taken. */
  lemma {:induction false} PaidWithinRate(b: Bucket, times: seq<int>, s: int, t: int)
    requires b.Valid() && Ascending(b.lastCheck, times) && s <= t
    ensures Paid(b, times, s, t) * SECOND <= b.Capacity() + (t - s) * b.rps
    decreases times
  {
    MulMono(0, t - s, b.rps);
    if times != [] {
      var x := times[0];
      AfterValid(b, x);
      if x < s {
        PaidWithinRate(b.After(x), times[1..], s, t);
      } else if x > t {
        NothingAfter(b, times, s, t);
      } else {
        PaidFromBalance(b.After(x), times[1..], s, t);
        MulMono(t - x, t - s, b.rps);
      }
    }
  }

  lemma {:induction false} NothingAfter(b: Bucket, times: seq<int>, s: int, t: int)
    requires times != [] ==> t < times[0] && Ascending(times[0], times)
    ensures Paid(b, times, s, t) == 0
    decreases times
  {
    if times != [] {
      NothingAfter(b.After(times[0]), times[1..], s, t);
    }
  }

  /** Once inside the window, the tokens taken are covered by the balance plus
      what flows in before t. */
  lemma {:induction false} PaidFromBalance(b: Bucket, times: seq<int>, s: int, t: int)
    requires b.Valid() && Ascending(b.lastCheck, times) && b.lastCheck <= t
    ensures Paid(b, times, s, t) * SECOND <= b.tokens + (t - b.lastCheck) * b.rps
    decreases times
  {
    MulMono(0, t - b.lastCheck, b.rps);
    if times != [] {
      var x := times[0];
      AfterValid(b, x);
      if x > t {
        NothingAfter(b, times, s, t);
      } else {
        PaidFromBalance(b.After(x), times[1..], s, t);
        assert (x - b.lastCheck) * b.rps + (t - x) * b.rps == (t - b.lastCheck) * b.rps;
      }
    }
  }

  /** If the rate divides 10^9, the balance stays a multiple of the rate, and a
      call is told to proceed exactly when it took a token. */
  lemma GrantIsPaid(b: Bucket, now: int)
    requires b.Valid() && b.lastCheck <= now && SECOND % b.rps == 0 && b.tokens % b.rps == 0
    ensures b.Wait(now) == 0 <==> b.Pays(now)
    ensures b.After(now).tokens % b.rps == 0
  {
    var refilled := b.Refilled(now);
    RefilledMultiple(b, now);
    MultipleSum(refilled, SECOND, b.rps, -1);
    if refilled < SECOND {
      MultipleSum(SECOND, refilled, b.rps, -1);
      MultipleAtLeast(SECOND - refilled, b.rps);
    }
  }

  lemma RefilledMultiple(b: Bucket, now: int)
    requires b.rps > 0 && b.tokens % b.rps == 0
    ensures b.Refilled(now) % b.rps == 0
  {
    DivUnique(SECOND, b.rps, 0);
    DivUnique(1, b.rps, 0);
    MultipleSum(b.tokens, b.rps, b.rps, now - b.lastCheck);
  }

  lemma {:induction false} GrantedIsPaid(b: Bucket, times: seq<int>, s: int, t: int)
    requires b.Valid() && Ascending(b.lastCheck, times) && SECOND % b.rps == 0 && b.tokens % b.rps == 0
    ensures Granted(b, times, s, t) == Paid(b, times, s, t)
    decreases times
  {
    if times != [] {
      AfterValid(b, times[0]);
      GrantIsPaid(b, times[0]);
      GrantedIsPaid(b.After(times[0]), times[1..], s, t);
    }
  }

  function Repeat(x: int, n: nat): (r: seq<int>)
    ensures |r| == n
  {
    if n == 0 then [] else [x] + Repeat(x, n - 1)
  }

  /** A balance short of one token by less than the rate lets every call at that
      instant through, and none of them pays. */
  lemma {:induction false} UnpaidBurst(b: Bucket, d: int, s: int, n: nat)
    requires b.rps > 0 && s <= d && SECOND - b.rps < b.Refilled(d) < SECOND
    ensures Granted(b, Repeat(d, n), s, d) == n && Paid(b, Repeat(d, n), s, d) == 0
    ensures d >= b.lastCheck ==> Ascending(b.lastCheck, Repeat(d, n))
    decreases n
  {
    if n > 0 {
      DivUnique(0, b.rps, SECOND - b.Refilled(d));
      var c := b.After(d);
      assert (d - c.lastCheck) * c.rps == 0;
      UnpaidBurst(c, d, s, n - 1);
      assert Repeat(d, n)[1..] == Repeat(d, n - 1);
    }
  }

  /** The calls of the counterexample: k calls at 0 that empty the bucket, then n
      calls at the last nanosecond before the next token is complete. */
  function DrainAndBurst(rps: int, k: nat, n: nat): seq<int>
    requires rps > 0
  {
    if k == 0 then Repeat(SECOND / rps, n) else [0] + DrainAndBurst(rps, k - 1, n)
  }

  lemma {:induction false} DrainAndBurstGrants(rps: int, k: nat, n: nat)
    requires rps > 0 && SECOND % rps != 0 && k <= rps
    ensures var times := DrainAndBurst(rps, k, n);
      Granted(Bucket(rps, k * SECOND, 0), times, 0, SECOND / rps) == k + n && Ascending(0, times)
  {
    if k == 0 {
      LastNanosecond(rps);
      UnpaidBurst(Bucket(rps, 0, 0), SECOND / rps, 0, n);
    } else {
      DrainOne(rps, k);
      DrainAndBurstGrants(rps, k - 1, n);
      Sequences.Cons(0, DrainAndBurst(rps, k - 1, n));
    }
  }

  lemma LastNanosecond(rps: int)
    requires rps > 0 && SECOND % rps != 0
    ensures 0 <= SECOND / rps && SECOND - rps < Bucket(rps, 0, 0).Refilled(SECOND / rps) < SECOND
  {
    var d := SECOND / rps;
    assert SECOND == d * rps + SECOND % rps;
    MulMono(1, rps, SECOND);
  }

  lemma DrainOne(rps: int, k: nat)
    requires 0 < k <= rps
    ensures var b := Bucket(rps, k * SECOND, 0);
      b.Wait(0) == 0 && b.After(0) == Bucket(rps, (k - 1) * SECOND, 0)
  {
    MulMono(k, rps, SECOND);
    MulMono(1, k, SECOND);
  }

  /** The advertised cap, "requestsPerSecond req/s", as a property of a rate: no
      run started with a full bucket lets more than rps + rps*(t-s)/10^9 calls
      proceed in a window [s, t]. */
  ghost predicate CapsRate(rps: int)
    requires rps > 0
  {
    forall times, s, t | Ascending(0, times) && s <= t ::
      Granted(Full(rps, 0), times, s, t) * SECOND <= rps * SECOND + (t - s) * rps
  }

  /** The cap holds for every run exactly for the rates that divide 10^9; for
      every other rate the truncated wait lets unpaid calls through. */
  lemma CapHoldsExactly(rps: int)
    requires rps > 0
    ensures CapsRate(rps) <==> SECOND % rps == 0
  {
    var b := Full(rps, 0);
    if SECOND % rps == 0 {
      DivUnique(SECOND, rps, 0);
      forall times, s, t | Ascending(0, times) && s <= t
        ensures Granted(b, times, s, t) * SECOND <= rps * SECOND + (t - s) * rps
      {
        GrantedIsPaid(b, times, s, t);
        PaidWithinRate(b, times, s, t);
      }
    } else {
      DrainAndBurstGrants(rps, rps, 1);
      var d := SECOND / rps;
      assert SECOND == d * rps + SECOND % rps;
      assert Granted(b, DrainAndBurst(rps, rps, 1), 0, d) == rps + 1;
      assert (d - 0) * rps < SECOND;
    }
  }

  /** For a rate that does not divide 10^9 the excess is unbounded: any number of
      calls can be let through at one instant with an empty bucket. */
  lemma ExcessUnbounded(rps: int, n: nat)
    requires rps > 0 && SECOND % rps != 0
    ensures exists times, t | Ascending(0, times) :: Granted(Full(rps, 0), times, t, t) >= n
  {
    DrainAndBurstGrants(rps, rps, n);
    DrainedWindow(rps, rps, n);
    assert Ascending(0, DrainAndBurst(rps, rps, n));
    assert Granted(Full(rps, 0), DrainAndBurst(rps, rps, n), SECOND / rps, SECOND / rps) >= n;
  }

  lemma {:induction false} DrainedWindow(rps: int, k: nat, n: nat)
    requires rps > 0 && SECOND % rps != 0 && k <= rps
    ensures Granted(Bucket(rps, k * SECOND, 0), DrainAndBurst(rps, k, n), SECOND / rps, SECOND / rps) >= n
  {
    var d := SECOND / rps;
    var b := Bucket(rps, k * SECOND, 0);
    assert SECOND == d * rps + SECOND % rps;
    if k == 0 {
      UnpaidBurst(b, d, d, n);
    } else {
      assert k * SECOND <= rps * SECOND;
      assert b.After(0) == Bucket(rps, (k - 1) * SECOND, 0);
      DrainedWindow(rps, k - 1, n);
      assert DrainAndBurst(rps, k, n)[1..] == DrainAndBurst(rps, k - 1, n);
    }
  }

  // ---------------------------------------------------------- what is let through for sure

  /** n calls at one instant that the balance covers all take a token. */
  lemma {:induction false} CoveredPay(b: Bucket, now: int, n: nat)
    requires b.Valid() && b.lastCheck <= now && b.Refilled(now) >= n * SECOND
    ensures Paid(b, Repeat(now, n), now, now) == n == Granted(b, Repeat(now, n), now, now)
    decreases n
  {
    if n > 0 {
      var c := b.After(now);
      AfterValid(b, now);
      assert (now - c.lastCheck) * c.rps == 0;
      Sequences.Cons(now, Repeat(now, n - 1));
      CoveredPay(c, now, n - 1);
    }
  }

  /** After a second without a call, whatever was before it, the bucket is full again: rps
      calls at once are let through. */
  lemma IdleRefills(b: Bucket, now: int, n: nat)
    requires b.Valid() && now - b.lastCheck >= 1_000_000_000 && n <= b.rps
    ensures Paid(b, Repeat(now, n), now, now) == n == Granted(b, Repeat(now, n), now, now)
  {
    MulMono(SECOND, now - b.lastCheck, b.rps);
    MulMono(n, b.rps, SECOND);
    CoveredPay(b, now, n);
  }

  function AfterAll(b: Bucket, times: seq<int>): Bucket
    decreases times
  {
    if times == [] then b else AfterAll(b.After(times[0]), times[1..])
  }

  /** All the calls that take a token. */
  function Taken(b: Bucket, times: seq<int>): nat
    decreases times
  {
    if times == [] then 0 else (if b.Pays(times[0]) then 1 else 0) + Taken(b.After(times[0]), times[1..])
  }

  /** No refill of the run exceeds one second's worth of tokens. */
  predicate NeverFull(b: Bucket, times: seq<int>)
    decreases times
  {
    times == [] || (b.tokens + (times[0] - b.lastCheck) * b.rps <= b.rps * 1_000_000_000 && NeverFull(b.After(times[0]), times[1..]))
  }

  /** Then no token is lost: what was there and what flowed in is there or was taken. */
  lemma {:induction false} TokensConserved(b: Bucket, times: seq<int>)
    requires b.Valid() && Ascending(b.lastCheck, times) && NeverFull(b, times)
    ensures var c := AfterAll(b, times);
      c.Valid() && c.rps == b.rps && c.tokens + 1_000_000_000 * Taken(b, times) == b.tokens + (c.lastCheck - b.lastCheck) * b.rps
    decreases times
  {
    if times != [] {
      var x := times[0];
      AfterValid(b, x);
      TokensConserved(b.After(x), times[1..]);
      var c := AfterAll(b, times);
      assert (x - b.lastCheck) * b.rps + (c.lastCheck - x) * b.rps == (c.lastCheck - b.lastCheck) * b.rps;
    }
  }

  /** And a call takes none only when one token more than was taken so far is more than there
      was. */
  lemma RefusedOnlyWhenEmpty(b: Bucket, times: seq<int>, now: int)
    requires b.Valid() && Ascending(b.lastCheck, times) && NeverFull(b, times)
    requires AfterAll(b, times).lastCheck <= now && !AfterAll(b, times).Pays(now)
    ensures 1_000_000_000 * (Taken(b, times) + 1) > b.tokens + (now - b.lastCheck) * b.rps
  {
    var c := AfterAll(b, times);
    TokensConserved(b, times);
    MulMono(1, b.rps, SECOND);
    assert (c.lastCheck - b.lastCheck) * b.rps + (now - c.lastCheck) * b.rps == (now - b.lastCheck) * b.rps;
  }

  // ---------------------------------------------------------------- the limiter

  lemma WaitFacts(b: Bucket, now: int)
    requires b.Valid() && b.lastCheck <= now
    ensures b.Wait(now) >= 0
    ensures SECOND % b.rps == 0 && b.tokens % b.rps == 0 ==> b.After(now).tokens % b.rps == 0 && (b.Wait(now) == 0 <==> b.Pays(now))
  {
    if !b.Pays(now) {
      DivMono(0, SECOND - b.Refilled(now), b.rps);
    }
    if SECOND % b.rps == 0 && b.tokens % b.rps == 0 {
      GrantIsPaid(b, now);
    }
  }

  datatype Acquired = Proceed | Cancelled

  class Limiter {
    const rps: int
    var tokens: int
    var lastCheck: int

    function Value(): Bucket
      reads this
    {
      Bucket(rps, tokens, lastCheck)
    }

    ghost predicate Valid()
      reads this
    {
      rps > 0 ==> Value().Valid()
    }

    constructor (requestsPerSecond: int, now: int)
      ensures Valid() && Value() == Full(requestsPerSecond, now)
    {
      rps := requestsPerSecond;
      tokens := requestsPerSecond * SECOND;
      lastCheck := now;
    }

    /** One critical section of tryAcquire at clock reading `now`. */
    method TryAcquire(now: int) returns (wait: int)
      requires Valid() && rps > 0 && lastCheck <= now
      modifies this
      ensures Valid() && Value() == old(Value()).After(now)
      ensures wait == old(Value()).Wait(now) >= 0
      ensures SECOND % rps == 0 && old(tokens) % rps == 0 ==>
        tokens % rps == 0 && (wait == 0 <==> old(Value()).Pays(now))
    {
      ghost var b := Value();
      AfterValid(b, now);
      WaitFacts(b, now);
      var elapsed := now - lastCheck;
      lastCheck := now;
      tokens := tokens + elapsed * rps;
      if tokens > rps * SECOND {
        tokens := rps * SECOND;
      }
      assert tokens == b.Refilled(now);
      if tokens >= SECOND {
        tokens := tokens - SECOND;
        return 0;
      }
      return (SECOND - tokens) / rps;
    }

    /** acquire for a caller nobody competes with: each sleep overshoots by
        `late` nanoseconds, and `cancelled` says whether the context ends during
        a sleep. The loop sleeps at most once. */
    method Acquire(now: int, late: nat, cancelled: bool) returns (r: Acquired, at: int)
      requires Valid() && (rps > 0 ==> lastCheck <= now)
      modifies this
      ensures Valid()
      ensures rps <= 0 ==> r == Proceed && at == now && Value() == old(Value())
      ensures rps > 0 ==> var w := old(Value()).Wait(now);
        && (r == Cancelled <==> w > 0 && cancelled)
        && at == (if w == 0 || cancelled then now else now + w + late)
        && Value() == if at == now then old(Value()).After(now) else old(Value()).After(now).After(at)
    {
      if rps <= 0 {
        return Proceed, now;
      }
      at := now;
      ghost var first := true;
      while true
        invariant Valid() && lastCheck <= at
        invariant first ==> at == now && Value() == old(Value())
        invariant !first ==> old(Value()).Wait(now) > 0 && !cancelled && at == now + old(Value()).Wait(now) + late
        invariant !first ==> Value() == old(Value()).After(now) && Value().Wait(at) == 0
        decreases first
      {
        var wait := TryAcquire(at);
        if wait == 0 {
          return Proceed, at;
        }
        if cancelled {
          return Cancelled, at;
        }
        SleepSuffices(old(Value()), now, late);
        at := at + wait + late;
        first := false;
      }
    }
  }

  /** Sleeping at least the returned wait always suffices. */
  lemma SleepSuffices(b: Bucket, now: int, late: nat)
    requires b.Valid() && b.lastCheck <= now && b.Wait(now) > 0
    ensures b.After(now).Wait(now + b.Wait(now) + late) == 0
  {
    var w, c := b.Wait(now), b.After(now);
    AfterValid(b, now);
    var gap := SECOND - b.Refilled(now);
    assert gap == w * b.rps + gap % b.rps;
    assert (w + late) * b.rps == w * b.rps + late * b.rps;
    MulMono(0, late, b.rps);
    var left := SECOND - c.Refilled(now + w + late);
    if left > 0 {
      assert left <= gap - w * b.rps;
      DivUnique(0, b.rps, left);
    }
  }
}
