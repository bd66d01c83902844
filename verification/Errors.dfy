/** Error classification: providers/error_types.go, providers/errors.go and the
    outcome test of middleware/circuit.go. Message texts are not modelled. */
module Errors {
  import opened Options

  /** The three flags of a *ProviderError the middleware looks at, with the
      Retry-After hint in nanoseconds. */
  datatype ProviderError = ProviderError(status: int, retryable: bool, fallback: bool, retryAfter: int)

  /** An error chain. A provider error ends the walk whatever it wraps; `Wrapped`
      has an Unwrap method, `Plain` has none. */
  datatype Error =
    | Typed(pe: ProviderError)
    | Wrapped(inner: Error)
    | Plain(text: string)

  /** How one call ended. */
  datatype Outcome<+T> = Ok(value: T) | Fail(err: Error)

  /** What the breaker middleware answers when it lets a call not in. */
  const CIRCUIT_OPEN: Error := Typed(ProviderError(0, false, true, 0))

  const MAX_RETRY_AFTER: int := 120_000_000_000

  /** The first provider error of the chain. */
  function Find(err: Error): Option<ProviderError> {
    match err
    case Typed(pe) => Some(pe)
    case Wrapped(inner) => Find(inner)
    case Plain(_) => None
  }

  /** unwrapProviderError: walks the chain with one variable. */
  method UnwrapProviderError(start: Error) returns (r: Option<ProviderError>)
    ensures r == Find(start)
  {
    var err := start;
    while true
      invariant Find(err) == Find(start)
      decreases err
    {
      match err {
        case Typed(pe) => return Some(pe);
        case Wrapped(inner) => err := inner;
        case Plain(_) => return None;
      }
    }
  }

  predicate IsRetryable(err: Error) {
    var f := Find(err);
    f.Some? && f.value.retryable
  }

  predicate IsFallback(err: Error) {
    var f := Find(err);
    f.None? || f.value.fallback
  }

  /** middleware/circuit.go: errors that count as provider failures. */
  predicate TripsBreaker(err: Error) {
    var f := Find(err);
    f.None? || f.value.status !in {400, 401, 403}
  }

  function RetryAfter(err: Error): int {
    var f := Find(err);
    if f.Some? then f.value.retryAfter else 0
  }

  /** parseRetryAfter, given the header already decoded to whole seconds (`secs`)
      or to the time left until an HTTP date (`until`). */
  function ParseRetryAfter(secs: Option<int>, until: Option<int>): int {
    if secs.Some? && secs.value > 0 then
      if secs.value > MAX_RETRY_AFTER / 1_000_000_000 then MAX_RETRY_AFTER else secs.value * 1_000_000_000
    else if until.Some? && until.value > 0 then
      if until.value > MAX_RETRY_AFTER then MAX_RETRY_AFTER else until.value
    else 0
  }

  /** What parseError makes of a status and its header. */
  function Parsed(status: int, secs: Option<int>, until: Option<int>): (pe: ProviderError)
    ensures 0 <= pe.retryAfter <= MAX_RETRY_AFTER
    ensures pe.retryable ==> pe.fallback && TripsBreaker(Typed(pe))
    ensures !pe.fallback ==> !TripsBreaker(Typed(pe))
  {
    ProviderError(status, status in {408, 429} || status >= 500, status != 400,
                  if status == 429 then ParseRetryAfter(secs, until) else 0)
  }

  /** parseError: fills one record field by field, branch by branch. */
  method ParseError(status: int, secs: Option<int>, until: Option<int>) returns (pe: ProviderError)
    ensures pe == Parsed(status, secs, until)
    ensures status == 429 && secs.Some? && 0 < secs.value <= 120 ==> pe.retryAfter == secs.value * 1_000_000_000
  {
    pe := ProviderError(status, false, false, 0);
    if status == 400 {
      pe := pe.(retryable := false, fallback := false);
    } else if status == 401 || status == 403 {
      pe := pe.(retryable := false, fallback := true);
    } else if status == 408 {
      pe := pe.(retryable := true, fallback := true);
    } else if status == 429 {
      pe := pe.(retryable := true, fallback := true, retryAfter := ParseRetryAfter(secs, until));
    } else if status == 504 {
      pe := pe.(retryable := true, fallback := true);
    } else if status >= 500 {
      pe := pe.(retryable := true, fallback := true);
    } else {
      pe := pe.(retryable := status >= 500, fallback := status != 400);
    }
  }

  function Wrap(err: Error, depth: nat): Error {
    if depth == 0 then err else Wrapped(Wrap(err, depth - 1))
  }

  /** However deeply the client and the tools wrap an error, no classification of
      it changes. */
  lemma {:induction false} WrappingIsTransparent(err: Error, depth: nat)
    ensures IsRetryable(Wrap(err, depth)) == IsRetryable(err)
    ensures IsFallback(Wrap(err, depth)) == IsFallback(err)
    ensures TripsBreaker(Wrap(err, depth)) == TripsBreaker(err)
    ensures RetryAfter(Wrap(err, depth)) == RetryAfter(err)
  {
    if depth > 0 {
      WrappingIsTransparent(err, depth - 1);
    }
  }

  /** What every status means: which are worth another try, which another provider, and
      which count against the provider. */
  lemma StatusClasses(status: int, secs: Option<int>, until: Option<int>)
    ensures var err := Typed(Parsed(status, secs, until));
      && (IsRetryable(err) <==> status == 408 || status == 429 || status >= 500)
      && (IsFallback(err) <==> status != 400)
      && (TripsBreaker(err) <==> status != 400 && status != 401 && status != 403)
  {
  }

  /** The hint of an error: that of the header, at most two minutes, and only with status 429. */
  lemma HintClasses(status: int, secs: Option<int>, until: Option<int>)
    ensures var hint := RetryAfter(Typed(Parsed(status, secs, until)));
      && (status != 429 ==> hint == 0)
      && (status == 429 && secs.Some? && 0 < secs.value <= 120 ==> hint == secs.value * 1_000_000_000)
      && (status == 429 && secs.Some? && secs.value > 120 ==> hint == 120_000_000_000)
      && (status == 429 && (secs.None? || secs.value <= 0) ==>
            hint == if until.None? || until.value <= 0 then 0 else if until.value <= 120_000_000_000 then until.value else 120_000_000_000)
  {
  }

  /** An error of no provider is not retried; another provider is tried, and it counts. */
  lemma UntypedClasses(err: Error)
    requires Find(err).None?
    ensures !IsRetryable(err) && IsFallback(err) && TripsBreaker(err) && RetryAfter(err) == 0
  {
  }
}
