/** The completion path of client.go: the model chain, a fresh copy of the request
    for every attempt, the request policy, and the provider stack. */
module Client {
  import opened Options
  import opened Errors
  import opened Retry
  import opened Requests
  import opened Policy
  import opened PolicyInPlace
  import Billing
  import CacheKey
  import Sequences
  import Statistics
  import Text

  // ---------------------------------------------------------------- model names

  predicate HasTwoDots(s: string) {
    exists i | 0 <= i < |s| - 1 :: s[i] == '.' && s[i + 1] == '.'
  }

  /** parseModel. */
  function ParseModel(s: string): Option<(string, string)> {
    var i := Text.IndexOf(s, '/');
    if HasTwoDots(s) || i == |s| || i == 0 || i + 1 == |s| then None else Some((s[..i], s[i + 1..]))
  }

  /** A reference is accepted exactly if it is a non-empty provider without slash, a
      slash and a non-empty model, and holds no two dots in a row. */
  lemma ParseModelExactly(s: string, provider: string, model: string)
    ensures ParseModel(s) == Some((provider, model)) <==>
      s == provider + "/" + model && provider != "" && '/' !in provider && model != "" && !HasTwoDots(s)
  {
    if s == provider + "/" + model && '/' !in provider {
      assert s[|provider|] == '/';
      assert forall k | 0 <= k < |provider| :: s[k] == provider[k];
      assert Text.IndexOf(s, '/') == |provider|;
      assert s[..|provider|] == provider && s[|provider| + 1..] == model;
    }
    var i := Text.IndexOf(s, '/');
    if i < |s| {
      assert s == s[..i] + "/" + s[i + 1..];
      assert '/' !in s[..i];
    }
  }

  // ------------------------------------------------------------------ one attempt

  datatype Response = Response(content: string, inputTokens: int, outputTokens: int, createdTokens: int, readTokens: int)

  /** What one attempt meets: whether the circuit breaker lets it in, and the world
      of its retry loop. */
  datatype Surroundings = Surroundings(admitted: bool, world: World<Response>)

  const CONTEXT_ENDED: Error := Plain("context ended")

  /** What an attempt in these surroundings comes to. */
  function AttemptOutcome(maxRetries: nat, s: Surroundings): Outcome<Response> {
    if !s.admitted then Fail(CIRCUIT_OPEN)
    else match Ending(maxRetries, s.world)
      case Answered(a) => a
      case Interrupted => Fail(CONTEXT_ENDED)
  }

  /** The upstream calls it makes. */
  function AttemptCalls(maxRetries: nat, s: Surroundings): (n: nat)
    ensures n <= maxRetries + 1
  {
    if s.admitted then Retry.Calls(maxRetries, s.world) else 0
  }

  /** A breaker that is open answers for the provider, with an error that allows fallback;
      otherwise the first answer that ends the retries is the outcome, or the interruption of
      the sleep before it. */
  lemma AttemptShows(maxRetries: nat, s: Surroundings, n: nat)
    requires n <= maxRetries
    ensures !s.admitted ==> AttemptOutcome(maxRetries, s) == Fail(Typed(ProviderError(0, false, true, 0))) && AttemptCalls(maxRetries, s) == 0
    ensures s.admitted && (forall j | 0 <= j < n :: !Decisive(s.world.answer(j)) && !(s.world.cancelled(j) && WaitAfter(s.world, j) > 0)) ==>
      && (Decisive(s.world.answer(n)) || n == maxRetries ==>
            AttemptOutcome(maxRetries, s) == s.world.answer(n) && AttemptCalls(maxRetries, s) == n + 1)
      && (!Decisive(s.world.answer(n)) && n < maxRetries && s.world.cancelled(n) && WaitAfter(s.world, n) > 0 ==>
            AttemptOutcome(maxRetries, s) == Fail(Plain("context ended")) && AttemptCalls(maxRetries, s) == n + 1)
  {
    if s.admitted && forall j | 0 <= j < n :: !Decisive(s.world.answer(j)) && !(s.world.cancelled(j) && WaitAfter(s.world, j) > 0) {
      if Decisive(s.world.answer(n)) || n == maxRetries {
        FirstDecisive(maxRetries, s.world, n);
      } else if s.world.cancelled(n) && WaitAfter(s.world, n) > 0 {
        InterruptionEnds(maxRetries, s.world, n);
      }
    }
  }

  /** The provider behind its breaker and retry layers. It is free to do anything to
      the request it is handed and to everything reachable from it. */
  method CallProvider(r: Request, maxRetries: nat, s: Surroundings) returns (o: Outcome<Response>, upstream: nat)
    modifies r, r.Repr
    ensures o == AttemptOutcome(maxRetries, s) && upstream == AttemptCalls(maxRetries, s)
  {
    if !s.admitted {
      return Fail(CIRCUIT_OPEN), 0;
    }
    var ended, calls, waits := RetryValue(maxRetries, s.world);
    upstream := calls;
    match ended {
      case Answered(a) => o := a;
      case Interrupted => o := Fail(CONTEXT_ENDED);
    }
  }

  /** The policy, if any is enabled, applied to a request. */
  ghost function Policed(policy: Option<Policy>, attempt: (string, string), v: RequestV, digest: string -> string): Verdict<RequestV>
    requires CacheKey.IsDigest(digest)
  {
    if policy.None? then Applied(v) else Apply(policy.value, attempt.0, attempt.1, v, digest)
  }

  /** The request an attempt must be handed: the policy applied to the caller's request with
      the attempt's model. */
  ghost function Prepared(policy: Option<Policy>, attempt: (string, string), v: RequestV, digest: string -> string): Verdict<RequestV>
    requires CacheKey.IsDigest(digest)
  {
    Policed(policy, attempt, v.(model := attempt.1), digest)
  }

  /** A copy with its model, whose messages share no text. */
  method CopyFor(model: string, base: Request) returns (r: Request)
    requires base.Valid()
    ensures fresh(r) && fresh(r.Repr) && r.Valid() && r.Separate()
    ensures r.Value() == old(base.Value()).(model := model)
  {
    r := CloneRequest(base);
    r.SetModel(model);
  }

  /** applyRequestPolicy. */
  method ApplyRequestPolicy(policy: Option<Policy>, attempt: (string, string), r: Request, digest: string -> string)
    returns (verdict: Verdict<()>)
    requires r.Valid() && r.Separate() && CacheKey.IsDigest(digest)
    modifies r, r.Repr
    ensures r.Valid() && fresh(r.Repr - old(r.Repr))
    ensures Policed(policy, attempt, old(r.Value()), digest) ==
      match verdict case Applied(_) => Applied(r.Value()) case Rejected => Rejected case Panicked => Panicked
  {
    if policy.None? {
      return Applied(());
    }
    verdict := ApplyToSeparate(policy.value, attempt.0, attempt.1, r, digest);
  }

  /** The copy and the policy of one attempt. */
  method Prepare(policy: Option<Policy>, attempt: (string, string), base: Request, digest: string -> string)
    returns (r: Request, verdict: Verdict<()>, ghost handed: RequestV)
    requires base.Valid() && CacheKey.IsDigest(digest)
    ensures fresh(r) && fresh(r.Repr)
    ensures Prepared(policy, attempt, old(base.Value()), digest) ==
      match verdict case Applied(_) => Applied(handed) case Rejected => Rejected case Panicked => Panicked
  {
    r := CopyFor(attempt.1, base);
    verdict := ApplyRequestPolicy(policy, attempt, r, digest);
    handed := r.Value();
  }

  /** And the call. */
  method AttemptOnCopy(policy: Option<Policy>, attempt: (string, string), base: Request, digest: string -> string,
                       maxRetries: nat, s: Surroundings)
    returns (verdict: Verdict<()>, o: Outcome<Response>, upstream: nat, ghost handed: RequestV)
    requires base.Valid() && CacheKey.IsDigest(digest)
    ensures Prepared(policy, attempt, old(base.Value()), digest) ==
      match verdict case Applied(_) => Applied(handed) case Rejected => Rejected case Panicked => Panicked
    ensures verdict.Applied? ==> o == AttemptOutcome(maxRetries, s)
    ensures upstream == if verdict.Applied? then AttemptCalls(maxRetries, s) else 0
  {
    var r;
    r, verdict, handed := Prepare(policy, attempt, base, digest);
    o, upstream := Fail(CONTEXT_ENDED), 0;
    if verdict.Applied? {
      o, upstream := CallProvider(r, maxRetries, s);
    }
  }

  /** One turn of the chain. Nothing that existed before is written to. */
  method Attempt(policy: Option<Policy>, attempt: (string, string), base: Request, digest: string -> string,
                 maxRetries: nat, s: Surroundings)
    returns (verdict: Verdict<()>, o: Outcome<Response>, upstream: nat, ghost handed: RequestV)
    requires base.Valid() && CacheKey.IsDigest(digest)
    ensures base.Valid() && base.Value() == old(base.Value())
    ensures Prepared(policy, attempt, old(base.Value()), digest) ==
      match verdict case Applied(_) => Applied(handed) case Rejected => Rejected case Panicked => Panicked
    ensures verdict.Applied? ==> o == AttemptOutcome(maxRetries, s)
    ensures upstream == if verdict.Applied? then AttemptCalls(maxRetries, s) else 0
  {
    verdict, o, upstream, handed := AttemptOnCopy(policy, attempt, base, digest, maxRetries, s);
    base.Kept();
  }

  // -------------------------------------------------------------------- the chain

  datatype Completion =
    | Done(response: Response)
    | NilRequest
    | PolicyError
    | Crashed
    | AllFailed(err: Error)

  /** The (provider, model) pairs of the entries that parse and are configured. */
  function Attempts(chain: seq<string>, configured: set<string>): seq<(string, string)> {
    if chain == [] then []
    else
      var m := ParseModel(chain[|chain| - 1]);
      Attempts(chain[..|chain| - 1], configured)
      + if m.Some? && m.value.0 in configured then [m.value] else []
  }

  lemma {:induction false} AttemptsPrefix(chain: seq<string>, i: nat, configured: set<string>)
    requires i <= |chain|
    ensures Attempts(chain[..i], configured) <= Attempts(chain, configured)
    ensures |Attempts(chain, configured)| <= |chain|
  {
    if i == |chain| {
      assert chain[..i] == chain;
      if i > 0 {
        AttemptsPrefix(chain[..i - 1], i - 1, configured);
      }
    } else {
      var n := |chain| - 1;
      Sequences.TakeTake(chain, i, n);
      AttemptsPrefix(chain[..n], i, configured);
    }
  }

  /** How the list of attempts grows with entry i of the chain. */
  lemma NextAttempt(chain: seq<string>, i: nat, configured: set<string>, n: nat)
    requires i < |chain| && n <= |Attempts(chain, configured)|
    requires Attempts(chain[..i], configured) == Attempts(chain, configured)[..n]
    ensures var all, m := Attempts(chain, configured), ParseModel(chain[i]);
      if m.Some? && m.value.0 in configured
      then n < |all| && all[n] == m.value && Attempts(chain[..i + 1], configured) == all[..n + 1]
      else Attempts(chain[..i + 1], configured) == all[..n]
  {
    AttemptsPrefix(chain, i + 1, configured);
    AttemptsNext(chain, i, configured);
    var m := ParseModel(chain[i]);
    if m.Some? && m.value.0 in configured {
      PrefixNext(Attempts(chain, configured), n, m.value);
    }
  }

  lemma AttemptsNext(chain: seq<string>, i: nat, configured: set<string>)
    requires i < |chain|
    ensures var m := ParseModel(chain[i]);
      Attempts(chain[..i + 1], configured) ==
        if m.Some? && m.value.0 in configured then Attempts(chain[..i], configured) + [m.value]
        else Attempts(chain[..i], configured)
  {
    Sequences.TakeTake(chain, i, i + 1);
    Sequences.Unit(Attempts(chain[..i], configured));
  }

  lemma PrefixNext<T>(all: seq<T>, n: nat, x: T)
    requires n <= |all| && all[..n] + [x] <= all
    ensures n < |all| && all[n] == x && all[..n + 1] == all[..n] + [x]
  {
    assert (all[..n] + [x])[n] == x;
  }

  /** What every attempt was handed. */
  ghost predicate AllPrepared(policy: Option<Policy>, attempts: seq<(string, string)>, v: RequestV, digest: string -> string, handed: seq<RequestV>)
    requires CacheKey.IsDigest(digest)
  {
    |handed| <= |attempts| && forall k | 0 <= k < |handed| :: Prepared(policy, attempts[k], v, digest) == Applied(handed[k])
  }

  /** What the attempts made so far have been handed and have answered. */
  ghost predicate Progress(policy: Option<Policy>, attempts: seq<(string, string)>, v: RequestV, digest: string -> string,
                           handed: seq<RequestV>, outcomes: seq<Outcome<Response>>, maxRetries: nat, around: nat -> Surroundings)
    requires CacheKey.IsDigest(digest)
  {
    |handed| == |outcomes| && AllPrepared(policy, attempts, v, digest, handed) && AnswerRule(outcomes, maxRetries, around)
  }

  lemma ExtendProgress(policy: Option<Policy>, attempts: seq<(string, string)>, v: RequestV, digest: string -> string,
                       handed: seq<RequestV>, outcomes: seq<Outcome<Response>>, maxRetries: nat, around: nat -> Surroundings,
                       h: RequestV, o: Outcome<Response>)
    requires CacheKey.IsDigest(digest) && Progress(policy, attempts, v, digest, handed, outcomes, maxRetries, around)
    requires |handed| < |attempts| && Prepared(policy, attempts[|handed|], v, digest) == Applied(h)
    requires o == AttemptOutcome(maxRetries, around(|outcomes|))
    ensures Progress(policy, attempts, v, digest, handed + [h], outcomes + [o], maxRetries, around)
  {
    OneMore(handed, h, (k: nat, x) requires CacheKey.IsDigest(digest) =>
      k < |attempts| && Prepared(policy, attempts[k], v, digest) == Applied(x));
    OneMore(outcomes, o, (k: nat, x) => x == AttemptOutcome(maxRetries, around(k)));
  }

  lemma OneMore<T>(xs: seq<T>, x: T, p: (nat, T) --> bool)
    requires forall k: nat, y :: p.requires(k, y)
    requires p(|xs|, x) && forall k | 0 <= k < |xs| :: p(k, xs[k])
    ensures forall k | 0 <= k < |xs + [x]| :: p(k, (xs + [x])[k])
  {
  }

  predicate PassesOn(o: Outcome<Response>) {
    o.Fail? && IsFallback(o.err)
  }

  /** A run ended by the policy ended at the attempt the policy refuses. */
  ghost predicate PolicyRule(res: Completion, policy: Option<Policy>, attempts: seq<(string, string)>, v: RequestV, digest: string -> string, n: nat)
    requires CacheKey.IsDigest(digest)
  {
    && (res.PolicyError? ==> n < |attempts| && Prepared(policy, attempts[n], v, digest) == Rejected)
    && (res.Crashed? ==> n < |attempts| && Prepared(policy, attempts[n], v, digest) == Panicked)
  }

  function InvalidModel(entry: string): Error {
    Plain("invalid model " + entry)
  }

  function NotConfigured(provider: string): Error {
    Plain("provider " + provider + " not configured")
  }

  /** The error that an entry leaves behind; err is that of its attempt, if it makes one. */
  function EntryError(entry: string, configured: set<string>, err: Error): Error {
    var m := ParseModel(entry);
    if m.None? then InvalidModel(entry)
    else if m.value.0 !in configured then NotConfigured(m.value.0)
    else err
  }

  function LastError(outcomes: seq<Outcome<Response>>): Error {
    if outcomes != [] && outcomes[|outcomes| - 1].Fail? then outcomes[|outcomes| - 1].err else Plain("")
  }

  /** Whether an outcome ends the run, and how. */
  function Stop(o: Outcome<Response>): Option<Completion> {
    match o
    case Ok(r) => Some(Done(r))
    case Fail(e) => if IsFallback(e) then None else Some(AllFailed(Wrapped(e)))
  }

  class Client {
    const primary: string
    const fallbacks: seq<string>
    const configured: set<string>
    const maxRetries: nat
    const policy: Option<Policy>
    const stats: Statistics.Stats

    constructor (primary: string, fallbacks: seq<string>, configured: set<string>, maxRetries: nat, policy: Option<Policy>)
      ensures this.primary == primary && this.fallbacks == fallbacks && this.configured == configured
      ensures this.maxRetries == maxRetries && this.policy == policy && fresh(stats)
    {
      this.primary, this.fallbacks, this.configured := primary, fallbacks, configured;
      this.maxRetries, this.policy := maxRetries, policy;
      stats := new Statistics.Stats();
    }

    /** modelChain. */
    function Chain(): seq<string> {
      [primary] + fallbacks
    }

    /** One entry of the chain, entered after |outcomes| attempts; `ended` says that
        the run is over. */
    method Entry(entry: string, base: Request, ghost v: RequestV, digest: string -> string, s: Surroundings)
      returns (tried: Option<Outcome<Response>>, ended: Option<Completion>, err: Error, upstream: nat, ghost handed: RequestV)
      requires base.Valid() && base.Value() == v && CacheKey.IsDigest(digest)
      ensures base.Valid() && base.Value() == v
      ensures EntryRule(entry, v, digest, s, tried, ended, err, upstream, handed)
    {
      tried, ended, err, upstream, handed := None, None, Plain(""), 0, v;
      var m := ParseModel(entry);
      if m.None? {
        err := InvalidModel(entry);
      } else if m.value.0 !in configured {
        err := NotConfigured(m.value.0);
      } else {
        var verdict, o, n, h := Attempt(policy, m.value, base, digest, maxRetries, s);
        match verdict {
          case Rejected => ended := Some(PolicyError);
          case Panicked => ended := Some(Crashed);
          case Applied(_) =>
            tried, upstream, handed, ended := Some(o), n, h, Stop(o);
            err := if o.Fail? then o.err else err;
        }
      }
    }

    /** What becomes of an entry. */
    ghost predicate EntryRule(entry: string, v: RequestV, digest: string -> string, s: Surroundings,
                              tried: Option<Outcome<Response>>, ended: Option<Completion>, err: Error, upstream: nat, handed: RequestV)
      requires CacheKey.IsDigest(digest)
    {
      var m := ParseModel(entry);
      if m.None? || m.value.0 !in configured then
        tried == None && ended == None && upstream == 0 && err == EntryError(entry, configured, err)
      else
        match Prepared(policy, m.value, v, digest)
        case Rejected => tried == None && ended == Some(PolicyError) && upstream == 0
        case Panicked => tried == None && ended == Some(Crashed) && upstream == 0
        case Applied(w) =>
          var o := AttemptOutcome(maxRetries, s);
          && tried == Some(o) && ended == Stop(o) && upstream == AttemptCalls(maxRetries, s) && handed == w
          && (o.Fail? ==> err == o.err)
    }

    /** The state of the loop after i entries. */
    ghost predicate Tried(i: nat, v: RequestV, digest: string -> string, around: nat -> Surroundings,
                          upstream: nat, outcomes: seq<Outcome<Response>>, handed: seq<RequestV>, err: Error)
      requires CacheKey.IsDigest(digest) && i <= |Chain()|
    {
      var attempts := Attempts(Chain(), configured);
      && |outcomes| <= i && |outcomes| <= |attempts| && Attempts(Chain()[..i], configured) == attempts[..|outcomes|]
      && Progress(policy, attempts, v, digest, handed, outcomes, maxRetries, around)
      && upstream == Upstream(maxRetries, around, |outcomes|)
      && (forall k | 0 <= k < |outcomes| :: PassesOn(outcomes[k]))
      && (i > 0 ==> err == EntryError(Chain()[i - 1], configured, LastError(outcomes)))
    }

    /** What a finished run has done, and why it ends as it does. */
    ghost predicate Explained(res: Completion, v: RequestV, digest: string -> string, around: nat -> Surroundings,
                              upstream: nat, outcomes: seq<Outcome<Response>>, handed: seq<RequestV>)
      requires CacheKey.IsDigest(digest)
    {
      var attempts := Attempts(Chain(), configured);
      && Progress(policy, attempts, v, digest, handed, outcomes, maxRetries, around)
      && ChainRule(res, outcomes, |attempts|) && !res.NilRequest?
      && PolicyRule(res, policy, attempts, v, digest, |outcomes|)
      && LastErrorRule(res, outcomes, Chain()[|fallbacks|], configured)
      && upstream == Upstream(maxRetries, around, |outcomes|) && |outcomes| <= 1 + |fallbacks|
    }

    /** One turn of the loop. */
    method Turn(i: nat, base: Request, ghost v: RequestV, digest: string -> string, around: nat -> Surroundings,
                upstream: nat, outcomes: seq<Outcome<Response>>, ghost handed: seq<RequestV>, err: Error)
      returns (ended: Option<Completion>, last: Error, calls: nat, more: seq<Outcome<Response>>, ghost given: seq<RequestV>)
      requires base.Valid() && base.Value() == v && CacheKey.IsDigest(digest)
      requires i < |Chain()| && Tried(i, v, digest, around, upstream, outcomes, handed, err)
      ensures base.Valid() && base.Value() == v
      ensures match ended
        case None => Tried(i + 1, v, digest, around, calls, more, given, last)
        case Some(res) => Explained(res, v, digest, around, calls, more, given)
    {
      var tried, e, er, n, h := Entry(Chain()[i], base, v, digest, around(|outcomes|));
      ended, last, calls := e, er, upstream + n;
      more := if tried.Some? then outcomes + [tried.value] else outcomes;
      given := if tried.Some? then handed + [h] else handed;
      AfterEntry(i, v, digest, around, upstream, outcomes, handed, err, tried, e, er, n, h);
    }

    lemma AfterEntry(i: nat, v: RequestV, digest: string -> string, around: nat -> Surroundings,
                     upstream: nat, outcomes: seq<Outcome<Response>>, handed: seq<RequestV>, err: Error,
                     tried: Option<Outcome<Response>>, ended: Option<Completion>, last: Error, n: nat, h: RequestV)
      requires CacheKey.IsDigest(digest)
      requires i < |Chain()| && Tried(i, v, digest, around, upstream, outcomes, handed, err)
      requires EntryRule(Chain()[i], v, digest, around(|outcomes|), tried, ended, last, n, h)
      ensures var more := if tried.Some? then outcomes + [tried.value] else outcomes;
        var given := if tried.Some? then handed + [h] else handed;
        match ended
        case None => Tried(i + 1, v, digest, around, upstream + n, more, given, last)
        case Some(res) => Explained(res, v, digest, around, upstream + n, more, given)
    {
      NextAttempt(Chain(), i, configured, |outcomes|);
      if tried.Some? {
        AfterAttempt(i, v, digest, around, upstream, outcomes, handed, err, tried.value, last, n, h);
      }
    }

    lemma AfterAttempt(i: nat, v: RequestV, digest: string -> string, around: nat -> Surroundings,
                       upstream: nat, outcomes: seq<Outcome<Response>>, handed: seq<RequestV>, err: Error,
                       o: Outcome<Response>, last: Error, n: nat, h: RequestV)
      requires CacheKey.IsDigest(digest)
      requires i < |Chain()| && Tried(i, v, digest, around, upstream, outcomes, handed, err)
      requires var m := ParseModel(Chain()[i]);
        m.Some? && m.value.0 in configured && Prepared(policy, m.value, v, digest) == Applied(h)
      requires o == AttemptOutcome(maxRetries, around(|outcomes|)) && n == AttemptCalls(maxRetries, around(|outcomes|))
      requires o.Fail? ==> last == o.err
      ensures Stop(o).None? ==> Tried(i + 1, v, digest, around, upstream + n, outcomes + [o], handed + [h], last)
      ensures Stop(o).Some? ==> Explained(Stop(o).value, v, digest, around, upstream + n, outcomes + [o], handed + [h])
    {
      AttemptProgress(i, v, digest, around, upstream, outcomes, handed, err, o, h);
      AfterOutcome(outcomes, o, |Attempts(Chain(), configured)|, Chain()[|fallbacks|], configured);
    }

    lemma AttemptProgress(i: nat, v: RequestV, digest: string -> string, around: nat -> Surroundings,
                          upstream: nat, outcomes: seq<Outcome<Response>>, handed: seq<RequestV>, err: Error,
                          o: Outcome<Response>, h: RequestV)
      requires CacheKey.IsDigest(digest)
      requires i < |Chain()| && Tried(i, v, digest, around, upstream, outcomes, handed, err)
      requires var m := ParseModel(Chain()[i]);
        m.Some? && m.value.0 in configured && Prepared(policy, m.value, v, digest) == Applied(h)
      requires o == AttemptOutcome(maxRetries, around(|outcomes|))
      ensures var attempts := Attempts(Chain(), configured);
        && |outcomes| < |attempts| && Attempts(Chain()[..i + 1], configured) == attempts[..|outcomes| + 1]
        && Progress(policy, attempts, v, digest, handed + [h], outcomes + [o], maxRetries, around)
    {
      NextAttempt(Chain(), i, configured, |outcomes|);
      ExtendProgress(policy, Attempts(Chain(), configured), v, digest, handed, outcomes, maxRetries, around, h, o);
    }

    /** The loop of Complete over the chain, up to the statistics. */
    method Walk(base: Request, ghost v: RequestV, digest: string -> string, around: nat -> Surroundings)
      returns (res: Completion, upstream: nat, outcomes: seq<Outcome<Response>>, ghost handed: seq<RequestV>)
      requires base.Valid() && base.Value() == v && CacheKey.IsDigest(digest)
      ensures Explained(res, v, digest, around, upstream, outcomes, handed)
    {
      upstream, outcomes, handed := 0, [], [];
      var lastErr := Plain("");
      for i := 0 to 1 + |fallbacks|
        invariant base.Valid() && base.Value() == v
        invariant Tried(i, v, digest, around, upstream, outcomes, handed, lastErr)
      {
        var ended;
        ended, lastErr, upstream, outcomes, handed := Turn(i, base, v, digest, around, upstream, outcomes, handed, lastErr);
        if ended.Some? {
          return ended.value, upstream, outcomes, handed;
        }
      }
      AllTried(v, digest, around, upstream, outcomes, handed, lastErr);
      return AllFailed(Wrapped(lastErr)), upstream, outcomes, handed;
    }

    /** After the last entry nothing is left to attempt. */
    lemma AllTried(v: RequestV, digest: string -> string, around: nat -> Surroundings,
                   upstream: nat, outcomes: seq<Outcome<Response>>, handed: seq<RequestV>, err: Error)
      requires CacheKey.IsDigest(digest) && Tried(|Chain()|, v, digest, around, upstream, outcomes, handed, err)
      ensures Explained(AllFailed(Wrapped(err)), v, digest, around, upstream, outcomes, handed)
    {
      assert Chain()[..|Chain()|] == Chain();
    }

    /** The loop on a fresh copy of the caller's request. */
    method WalkOnCopy(req: Request, digest: string -> string, around: nat -> Surroundings)
      returns (res: Completion, upstream: nat, outcomes: seq<Outcome<Response>>, ghost handed: seq<RequestV>)
      requires req.Valid() && CacheKey.IsDigest(digest)
      ensures req.Valid() && req.Value() == old(req.Value())
      ensures Explained(res, old(req.Value()), digest, around, upstream, outcomes, handed)
    {
      var base := CloneRequest(req);
      res, upstream, outcomes, handed := Walk(base, base.Value(), digest, around);
      req.Kept();
    }

    // What a run means for the primary and the fallbacks.

    /** The attempt that falls to entry i of the chain, once all before it passed on. */
    lemma AskedAt(i: nat, entry: string, n: nat, res: Completion, v: RequestV, digest: string -> string, around: nat -> Surroundings,
                  upstream: nat, outcomes: seq<Outcome<Response>>, handed: seq<RequestV>)
      requires CacheKey.IsDigest(digest) && Explained(res, v, digest, around, upstream, outcomes, handed)
      requires Usable(entry, configured) && FallsTo(i, entry, n)
      ensures AskedInTurn(policy, ParseModel(entry).value, n, maxRetries, res, v, digest, around, outcomes, handed)
    {
      var attempts := Attempts(Chain(), configured);
      AttemptsCount(Chain()[..i], configured);
      AttemptsPrefix(Chain(), i, configured);
      NextAttempt(Chain(), i, configured, n);
      if |outcomes| > n {
        AskedBefore(policy, attempts, n, maxRetries, res, v, digest, around, outcomes, handed);
      } else if |outcomes| == n && forall j | 0 <= j < n :: PassesOn(outcomes[j]) {
        AskedNext(policy, attempts, n, res, v, digest, outcomes);
      }
    }

    /** The primary model is asked first. */
    lemma PrimaryFirst(res: Completion, v: RequestV, digest: string -> string, around: nat -> Surroundings,
                       upstream: nat, outcomes: seq<Outcome<Response>>, handed: seq<RequestV>)
      requires CacheKey.IsDigest(digest) && Explained(res, v, digest, around, upstream, outcomes, handed)
      requires Usable(primary, configured)
      ensures AskedInTurn(policy, ParseModel(primary).value, 0, maxRetries, res, v, digest, around, outcomes, handed)
    {
      AskedAt(0, primary, 0, res, v, digest, around, upstream, outcomes, handed);
    }

    /** How many models are asked before fallback k: the primary and the fallbacks before it,
        as far as they are configured. */
    function ConfiguredBefore(k: nat): nat
      requires k < |fallbacks|
    {
      (if Usable(primary, configured) then 1 else 0) + Usables(fallbacks[..k], configured)
    }

    /** A fallback is asked after the primary and the fallbacks before it, as far as they are
        configured, and only if they all passed on. */
    lemma FallbackInTurn(k: nat, res: Completion, v: RequestV, digest: string -> string, around: nat -> Surroundings,
                         upstream: nat, outcomes: seq<Outcome<Response>>, handed: seq<RequestV>)
      requires CacheKey.IsDigest(digest) && Explained(res, v, digest, around, upstream, outcomes, handed)
      requires k < |fallbacks| && Usable(fallbacks[k], configured)
      ensures AskedInTurn(policy, ParseModel(fallbacks[k]).value, ConfiguredBefore(k), maxRetries, res, v, digest, around, outcomes, handed)
    {
      FallbackEntry(k);
      AskedAt(k + 1, fallbacks[k], ConfiguredBefore(k), res, v, digest, around, upstream, outcomes, handed);
    }

    /** Entry i of the chain, after n entries of configured providers. */
    predicate FallsTo(i: nat, entry: string, n: nat) {
      i < |Chain()| && Chain()[i] == entry && Usables(Chain()[..i], configured) == n
    }

    lemma FallbackEntry(k: nat)
      requires k < |fallbacks|
      ensures FallsTo(k + 1, fallbacks[k], ConfiguredBefore(k))
    {
      assert Chain()[..k + 1] == [primary] + fallbacks[..k];
      UsablesCons(primary, fallbacks[..k], configured);
    }

    /** The one record a finished call makes. */
    method Record(res: Completion, ghost others: set<object>)
      requires stats !in others
      modifies stats
      ensures unchanged(others)
      ensures stats.total == old(stats.total) + if res.NilRequest? || res.Crashed? then 0 else 1
      ensures stats.succeeded == old(stats.succeeded) + if res.Done? then 1 else 0
      ensures stats.failed == old(stats.failed) + if res.PolicyError? || res.AllFailed? then 1 else 0
      ensures stats.tokens == old(stats.tokens) + if res.Done? then res.response.inputTokens + res.response.outputTokens else 0
    {
      match res {
        case Done(r) => stats.RecordRequest(Statistics.Record(true, r.inputTokens, r.outputTokens, r.createdTokens, r.readTokens));
        case PolicyError => stats.RecordRequest(Statistics.Record(false, 0, 0, 0, 0));
        case AllFailed(_) => stats.RecordRequest(Statistics.Record(false, 0, 0, 0, 0));
        case Crashed =>
        case NilRequest =>
      }
    }

    /** Complete. `around(k)` is what the k-th attempt meets. The caller's request is
        never changed, whatever the providers do to their copies; every attempt is
        handed the policy applied to the caller's request; the chain stops at the
        first success or the first error without fallback; otherwise the error of its last
        entry is returned; and one record is made. */
    method Complete(req: Request?, digest: string -> string, around: nat -> Surroundings)
      returns (res: Completion, upstream: nat, outcomes: seq<Outcome<Response>>, ghost handed: seq<RequestV>)
      requires req != null ==> req.Valid() && stats !in req.Repr
      requires CacheKey.IsDigest(digest)
      modifies stats
      ensures req != null ==> req.Valid() && req.Value() == old(req.Value())
      ensures req != null ==> Explained(res, old(req.Value()), digest, around, upstream, outcomes, handed)
      ensures req == null ==> res == NilRequest && upstream == 0 && outcomes == []
      ensures stats.total == old(stats.total) + if res.NilRequest? || res.Crashed? then 0 else 1
      ensures stats.succeeded == old(stats.succeeded) + if res.Done? then 1 else 0
      ensures stats.failed == old(stats.failed) + if res.PolicyError? || res.AllFailed? then 1 else 0
      ensures stats.tokens == old(stats.tokens) + if res.Done? then res.response.inputTokens + res.response.outputTokens else 0
    {
      if req == null {
        return NilRequest, 0, [], [];
      }
      res, upstream, outcomes, handed := WalkOnCopy(req, digest, around);
      Record(res, req.Repr);
      req.Kept();
    }
  }

  /** The upstream calls of the first k attempts. */
  function Upstream(maxRetries: nat, around: nat -> Surroundings, k: nat): nat {
    if k == 0 then 0 else Upstream(maxRetries, around, k - 1) + AttemptCalls(maxRetries, around(k - 1))
  }

  /** For a chain of one primary and some fallbacks. */
  lemma {:induction false} CallsBound(maxRetries: nat, around: nat -> Surroundings, k: nat, fallbacks: nat)
    requires k <= 1 + fallbacks
    ensures Upstream(maxRetries, around, k) <= (maxRetries + 1) * (1 + fallbacks)
  {
    if k > 0 {
      if fallbacks == 0 {
        assert Upstream(maxRetries, around, 0) == 0;
      } else {
        CallsBound(maxRetries, around, k - 1, fallbacks - 1);
      }
      assert (maxRetries + 1) * (1 + fallbacks) == (maxRetries + 1) * fallbacks + (maxRetries + 1);
    }
  }

  /** How a run over `configured` attempts ends: every attempt but the last failed
      with an error that allows fallback; a success is returned; an error without
      fallback is; and giving up otherwise means that every attempt was made. */
  predicate ChainRule(res: Completion, outcomes: seq<Outcome<Response>>, configured: nat) {
    && (forall k | 0 <= k < |outcomes| - 1 :: PassesOn(outcomes[k]))
    && (res.Done? <==> outcomes != [] && outcomes[|outcomes| - 1].Ok?)
    && (res.Done? ==> outcomes[|outcomes| - 1] == Ok(res.response))
    && (outcomes != [] && outcomes[|outcomes| - 1].Fail? && !PassesOn(outcomes[|outcomes| - 1]) ==>
          res == AllFailed(Wrapped(outcomes[|outcomes| - 1].err)))
    && (res.AllFailed? && (outcomes == [] || PassesOn(outcomes[|outcomes| - 1])) ==> |outcomes| == configured)
  }

  /** When every attempt allows fallback, the error returned is what the last entry of the
      chain left behind, wrapped. */
  predicate LastErrorRule(res: Completion, outcomes: seq<Outcome<Response>>, last: string, configured: set<string>) {
    res.AllFailed? && (outcomes == [] || PassesOn(outcomes[|outcomes| - 1])) ==>
      res.err == Wrapped(EntryError(last, configured, LastError(outcomes)))
  }

  /** So giving up returns the error of the last attempt, unless the last entry is invalid or
      not configured: then it says that, whatever the providers answered. */
  lemma ErrorReturned(chain: seq<string>, configured: set<string>, res: Completion, outcomes: seq<Outcome<Response>>)
    requires chain != [] && ChainRule(res, outcomes, |Attempts(chain, configured)|)
    requires LastErrorRule(res, outcomes, chain[|chain| - 1], configured) && res.AllFailed?
    ensures var m := ParseModel(chain[|chain| - 1]);
      if (m.Some? && m.value.0 in configured) || (outcomes != [] && !PassesOn(outcomes[|outcomes| - 1]))
      then outcomes != [] && outcomes[|outcomes| - 1].Fail? && res.err == Wrapped(outcomes[|outcomes| - 1].err)
      else res.err == Wrapped(if m.None? then InvalidModel(chain[|chain| - 1]) else NotConfigured(m.value.0))
  {
  }

  lemma AfterOutcome(outcomes: seq<Outcome<Response>>, o: Outcome<Response>, n: nat, last: string, configured: set<string>)
    requires forall k | 0 <= k < |outcomes| :: PassesOn(outcomes[k])
    ensures Stop(o).None? ==> o.Fail? && LastError(outcomes + [o]) == o.err
    ensures Stop(o).None? ==> forall k | 0 <= k < |outcomes + [o]| :: PassesOn((outcomes + [o])[k])
    ensures Stop(o).Some? ==> var res := Stop(o).value;
      && (res.Done? || res.AllFailed?)
      && ChainRule(res, outcomes + [o], n) && LastErrorRule(res, outcomes + [o], last, configured)
  {
  }

  predicate Usable(entry: string, configured: set<string>) {
    ParseModel(entry).Some? && ParseModel(entry).value.0 in configured
  }

  /** How many of the entries name a model of a configured provider. */
  function Usables(entries: seq<string>, configured: set<string>): nat {
    if entries == [] then 0
    else Usables(entries[..|entries| - 1], configured) + if Usable(entries[|entries| - 1], configured) then 1 else 0
  }

  lemma {:induction false} UsablesCons(first: string, rest: seq<string>, configured: set<string>)
    ensures Usables([first] + rest, configured) == (if Usable(first, configured) then 1 else 0) + Usables(rest, configured)
  {
    if rest == [] {
      assert [first] + rest == [first] && [first][..0] == [];
    } else {
      var n := |rest| - 1;
      assert ([first] + rest)[..n + 1] == [first] + rest[..n];
      UsablesCons(first, rest[..n], configured);
    }
  }

  lemma {:induction false} AttemptsCount(chain: seq<string>, configured: set<string>)
    ensures |Attempts(chain, configured)| == Usables(chain, configured)
  {
    if chain != [] {
      AttemptsCount(chain[..|chain| - 1], configured);
    }
  }

  /** Attempt n of a run, if it comes to it, is that of this model: every attempt before it
      failed with an error that allows fallback; the policy decides whether the provider is
      called; it is handed the caller's request with this model; and an answer ends the run. */
  ghost predicate AskedInTurn(policy: Option<Policy>, model: (string, string), n: nat, maxRetries: nat, res: Completion, v: RequestV,
                              digest: string -> string, around: nat -> Surroundings, outcomes: seq<Outcome<Response>>, handed: seq<RequestV>)
    requires CacheKey.IsDigest(digest)
  {
    && (|outcomes| > n ==>
          && |handed| > n && Prepared(policy, model, v, digest) == Applied(handed[n]) && handed[n].model == model.1
          && outcomes[n] == AttemptOutcome(maxRetries, around(n))
          && (forall j | 0 <= j < n :: outcomes[j].Fail? && IsFallback(outcomes[j].err))
          && (outcomes[n].Ok? ==> |outcomes| == n + 1 && res == Done(outcomes[n].value)))
    && (|outcomes| >= n && (forall j | 0 <= j < n :: outcomes[j].Fail? && IsFallback(outcomes[j].err)) ==>
          match Prepared(policy, model, v, digest)
          case Applied(_) => |outcomes| > n
          case Rejected => |outcomes| == n && res == PolicyError
          case Panicked => |outcomes| == n && res == Crashed)
  }

  lemma AskedBefore(policy: Option<Policy>, attempts: seq<(string, string)>, n: nat, maxRetries: nat, res: Completion, v: RequestV,
                    digest: string -> string, around: nat -> Surroundings, outcomes: seq<Outcome<Response>>, handed: seq<RequestV>)
    requires CacheKey.IsDigest(digest) && n < |outcomes| && Progress(policy, attempts, v, digest, handed, outcomes, maxRetries, around)
    requires ChainRule(res, outcomes, |attempts|)
    ensures n < |attempts| && AskedInTurn(policy, attempts[n], n, maxRetries, res, v, digest, around, outcomes, handed)
  {
    assert Prepared(policy, attempts[n], v, digest) == Applied(handed[n]);
    PreparedModel(policy, attempts[n], v, digest, handed[n]);
    assert forall j | 0 <= j < n :: PassesOn(outcomes[j]);
  }

  lemma AskedNext(policy: Option<Policy>, attempts: seq<(string, string)>, n: nat, res: Completion, v: RequestV,
                  digest: string -> string, outcomes: seq<Outcome<Response>>)
    requires CacheKey.IsDigest(digest) && n == |outcomes| < |attempts| && !res.NilRequest?
    requires ChainRule(res, outcomes, |attempts|) && PolicyRule(res, policy, attempts, v, digest, n)
    requires forall j | 0 <= j < n :: PassesOn(outcomes[j])
    ensures match Prepared(policy, attempts[n], v, digest)
      case Applied(_) => false
      case Rejected => res == PolicyError
      case Panicked => res == Crashed
  {
  }

  /** What a provider is handed of the caller's request: its own model, the caller's store
      flag or the default, and everything else but cache options and messages as it was. */
  lemma PreparedModel(policy: Option<Policy>, attempt: (string, string), v: RequestV, digest: string -> string, w: RequestV)
    requires CacheKey.IsDigest(digest) && Prepared(policy, attempt, v, digest) == Applied(w)
    ensures w == v.(model := attempt.1, store := w.store, cache := w.cache, messages := w.messages)
    ensures w.store == if v.store.Some? || policy.None? then v.store else policy.value.store
    ensures policy.None? ==> w.cache == v.cache && w.messages == v.messages
  {
    if policy.Some? {
      var u := v.(model := attempt.1);
      var n := RewriteMessages(v.messages, Billing.Replacement(policy.value.replacement));
      RewriteHeadersOnly(v.messages, Billing.Replacement(policy.value.replacement));
      WritesOnlyWith(policy.value, attempt.0, attempt.1, u, n, digest);
      StoreFilled(policy.value, attempt.0, attempt.1, u, n, digest);
      AnswerLeft(policy.value, attempt.0, attempt.1, u, n, digest);
    }
  }

  /** Every attempt comes to what its breaker and its upstream make of it. */
  predicate AnswerRule(outcomes: seq<Outcome<Response>>, maxRetries: nat, around: nat -> Surroundings) {
    forall k | 0 <= k < |outcomes| :: outcomes[k] == AttemptOutcome(maxRetries, around(k))
  }

  /** A response of status 400 ends the whole run, however many retries came before it and
      however its error is wrapped: the attempt that meets it is the last, no call follows
      it, and its error is the one returned. */
  lemma BadRequestEndsRun(res: Completion, outcomes: seq<Outcome<Response>>, maxRetries: nat, around: nat -> Surroundings,
                          configured: nat, k: nat, n: nat, err: Error, secs: Option<int>, until: Option<int>)
    requires ChainRule(res, outcomes, configured) && AnswerRule(outcomes, maxRetries, around)
    requires k < |outcomes| && around(k).admitted && n <= maxRetries
    requires var w := around(k).world;
      && w.answer(n) == Fail(err) && Find(err) == Some(Parsed(400, secs, until))
      && forall j | 0 <= j < n :: !Decisive(w.answer(j)) && !(w.cancelled(j) && WaitAfter(w, j) > 0)
    ensures k == |outcomes| - 1 && res == AllFailed(Wrapped(err))
    ensures Upstream(maxRetries, around, |outcomes|) == Upstream(maxRetries, around, k) + n + 1
  {
    FirstDecisive(maxRetries, around(k).world, n);
    assert outcomes[k] == Fail(err) && !PassesOn(outcomes[k]);
  }
}
