/** The three-state circuit breaker of internal/circuit/breaker.go and the
    admission/recording discipline of middleware/circuit.go. Each method holds the
    mutex, so it is one atomic step; clock readings are nanoseconds. */
module Breaker {
  import opened Options
  import opened Errors

  datatype State = Closed | Open | HalfOpen

  datatype Config = Config(maxFailures: int, resetTimeout: int, halfOpenRequests: int) {
    predicate Valid() {
      maxFailures > 0 && resetTimeout > 0 && halfOpenRequests > 0
    }

    function WithDefaults(): (c: Config)
      ensures c.Valid()
      ensures Valid() ==> c == this
      ensures if maxFailures > 0 then c.maxFailures == maxFailures else c.maxFailures == 5
      ensures if resetTimeout > 0 then c.resetTimeout == resetTimeout else c.resetTimeout == 60_000_000_000
      ensures if halfOpenRequests > 0 then c.halfOpenRequests == halfOpenRequests else c.halfOpenRequests == 1
    {
      Config(if maxFailures <= 0 then 5 else maxFailures,
             if resetTimeout <= 0 then 60_000_000_000 else resetTimeout,
             if halfOpenRequests <= 0 then 1 else halfOpenRequests)
    }
  }

  /** The mutable part of a breaker. */
  datatype Core = Core(state: State, failures: int, halfOpenSent: int, lastFail: int) {
    predicate Elapsed(cfg: Config, now: int) {
      now - lastFail >= cfg.resetTimeout
    }

    predicate Allows(cfg: Config, now: int) {
      match state
      case Closed => true
      case Open => Elapsed(cfg, now) && 0 < cfg.halfOpenRequests
      case HalfOpen => halfOpenSent < cfg.halfOpenRequests
    }

    function AfterAllow(cfg: Config, now: int): Core {
      match state
      case Closed => this
      case Open =>
        if !Elapsed(cfg, now) then this
        else this.(state := HalfOpen, halfOpenSent := if 0 < cfg.halfOpenRequests then 1 else 0)
      case HalfOpen =>
        if Allows(cfg, now) then this.(halfOpenSent := halfOpenSent + 1) else this
    }

    function AfterSuccess(): Core {
      this.(failures := 0, state := if state.HalfOpen? then Closed else state)
    }

    function AfterFailure(cfg: Config, now: int): Core {
      if state.HalfOpen? || failures + 1 >= cfg.maxFailures
      then this.(state := Open, failures := 0, lastFail := now)
      else this.(failures := failures + 1, lastFail := now)
    }
  }

  const INITIAL: Core := Core(Closed, 0, 0, 0)

  /** Whether an outcome counts as a provider failure. */
  predicate Counts(outcome: Option<Error>) {
    outcome.Some? && TripsBreaker(outcome.value)
  }

  class CircuitBreaker {
    const cfg: Config
    var state: State
    var failures: int
    var halfOpenSent: int
    var lastFail: int

    function Value(): Core
      reads this
    {
      Core(state, failures, halfOpenSent, lastFail)
    }

    constructor (config: Config)
      ensures cfg == config.WithDefaults() && Value() == INITIAL
    {
      cfg := config.WithDefaults();
      state, failures, halfOpenSent, lastFail := Closed, 0, 0, 0;
    }

    method Allow(now: int) returns (ok: bool)
      modifies this
      ensures ok == old(Value()).Allows(cfg, now)
      ensures Value() == old(Value()).AfterAllow(cfg, now)
    {
      if state.Closed? {
        return true;
      }
      if state.Open? {
        if now - lastFail >= cfg.resetTimeout {
          state := HalfOpen;
          halfOpenSent := 0;
        } else {
          return false;
        }
      }
      if halfOpenSent >= cfg.halfOpenRequests {
        return false;
      }
      halfOpenSent := halfOpenSent + 1;
      return true;
    }

    method RecordSuccess()
      modifies this
      ensures Value() == old(Value()).AfterSuccess()
    {
      failures := 0;
      if state.HalfOpen? {
        state := Closed;
      }
    }

    method RecordFailure(now: int)
      modifies this
      ensures Value() == old(Value()).AfterFailure(cfg, now)
    {
      failures := failures + 1;
      lastFail := now;
      if state.HalfOpen? || failures >= cfg.maxFailures {
        state := Open;
        failures := 0;
      }
    }

    /** The middleware's record: the outcome of one admitted call. */
    method Record(outcome: Option<Error>, now: int)
      modifies this
      ensures Value() == if Counts(outcome) then old(Value()).AfterFailure(cfg, now) else old(Value()).AfterSuccess()
    {
      if outcome.None? {
        RecordSuccess();
        return;
      }
      if TripsBreaker(outcome.value) {
        RecordFailure(now);
      } else {
        RecordSuccess();
      }
    }

    /** The middleware's Complete around a provider that answers `outcome`, with
        nobody else using the breaker: `begin` and `end` are the clock readings of
        the two critical sections. A rejection is reported as a fallback error. */
    method Complete(outcome: Option<Error>, begin: int, end: int) returns (called: bool, r: Option<Error>)
      modifies this
      ensures called == old(Value()).Allows(cfg, begin)
      ensures called ==> r == outcome
      ensures !called ==> r == Some(CIRCUIT_OPEN) && IsFallback(CIRCUIT_OPEN) && !IsRetryable(CIRCUIT_OPEN)
      ensures Value() ==
        var c := old(Value()).AfterAllow(cfg, begin);
        if !called then c else if Counts(outcome) then c.AfterFailure(cfg, end) else c.AfterSuccess()
    {
      called := Allow(begin);
      if !called {
        return false, Some(CIRCUIT_OPEN);
      }
      Record(outcome, end);
      r := outcome;
    }
  }
}

/** Any number of requests in flight through one breaker. */
module BreakerRuns {
  import opened Arithmetic
  import opened Options
  import opened Errors
  import opened Breaker

  /** How a request was admitted: as a probe of a half-open epoch, or while closed. */
  datatype Ticket = Probe(epoch: nat) | Ordinary

  datatype Sys = Sys(core: Core, inflight: map<nat, Ticket>, epoch: nat, clock: int)

  /** `Start` is one call of allow, `Finish` one call of record. `Lose` is the end of a
      request that is never recorded, as when its provider panics. */
  datatype Event =
    | Start(id: nat, now: int)
    | Finish(id: nat, outcome: Option<Error>, now: int)
    | Lose(id: nat, now: int)

  predicate Enabled(s: Sys, e: Event) {
    s.clock <= e.now &&
    match e
    case Start(id, _) => id !in s.inflight
    case _ => e.id in s.inflight
  }

  predicate Admits(cfg: Config, s: Sys, e: Event) {
    e.Start? && s.core.Allows(cfg, e.now)
  }

  function Next(cfg: Config, s: Sys, e: Event): Sys {
    match e
    case Start(id, now) =>
      var c := s.core.AfterAllow(cfg, now);
      var ep := if s.core.state.Open? && c.state.HalfOpen? then s.epoch + 1 else s.epoch;
      var ticket := if c.state.HalfOpen? then Probe(ep) else Ordinary;
      Sys(c, if s.core.Allows(cfg, now) then s.inflight[id := ticket] else s.inflight, ep, now)
    case Finish(id, outcome, now) =>
      var c := if Counts(outcome) then s.core.AfterFailure(cfg, now) else s.core.AfterSuccess();
      Sys(c, s.inflight - {id}, s.epoch, now)
    case Lose(id, now) => s.(inflight := s.inflight - {id}, clock := now)
  }

  predicate Legal(cfg: Config, s: Sys, es: seq<Event>)
    decreases es
  {
    es == [] || (Enabled(s, es[0]) && Legal(cfg, Next(cfg, s, es[0]), es[1..]))
  }

  function Run(cfg: Config, s: Sys, es: seq<Event>): Sys
    decreases es
  {
    if es == [] then s else Run(cfg, Next(cfg, s, es[0]), es[1..])
  }

  function Admitted(cfg: Config, s: Sys, es: seq<Event>): nat
    decreases es
  {
    if es == [] then 0 else
      (if Admits(cfg, s, es[0]) then 1 else 0) + Admitted(cfg, Next(cfg, s, es[0]), es[1..])
  }

  function Begin(now: int): Sys {
    Sys(INITIAL, map[], 0, now)
  }

  function Probes(s: Sys): set<nat> {
    set id | id in s.inflight && s.inflight[id] == Probe(s.epoch)
  }

  /** What every step keeps. */
  ghost predicate Inv(cfg: Config, s: Sys) {
    && cfg.Valid()
    && 0 <= s.core.failures < cfg.maxFailures
    && (forall id | id in s.inflight && s.inflight[id].Probe? :: s.inflight[id].epoch <= s.epoch)
    && (!s.core.state.Closed? ==> s.core.lastFail <= s.clock)
    && (s.core.state.HalfOpen? ==>
          && 1 <= s.core.halfOpenSent <= cfg.halfOpenRequests
          && |Probes(s)| <= s.core.halfOpenSent)
  }

  /** No probe of the trial under way has been lost. */
  ghost predicate Whole(s: Sys) {
    s.core.state.HalfOpen? ==> |Probes(s)| == s.core.halfOpenSent
  }

  predicate NoneLost(es: seq<Event>) {
    forall i | 0 <= i < |es| :: !es[i].Lose?
  }

  /** How the probes of the trial under way change. */
  lemma ProbesAfter(cfg: Config, s: Sys, e: Event)
    requires Inv(cfg, s) && Enabled(s, e) && Next(cfg, s, e).core.state.HalfOpen?
    ensures Probes(Next(cfg, s, e)) ==
      if e.Lose? then Probes(s) - {e.id}
      else if s.core.state.Open? then {e.id}
      else if Admits(cfg, s, e) then Probes(s) + {e.id}
      else Probes(s)
  {
  }

  lemma StepKeepsInv(cfg: Config, s: Sys, e: Event)
    requires Inv(cfg, s) && Enabled(s, e)
    ensures Inv(cfg, Next(cfg, s, e))
    ensures Whole(s) && !e.Lose? ==> Whole(Next(cfg, s, e))
  {
    if Next(cfg, s, e).core.state.HalfOpen? {
      ProbesAfter(cfg, s, e);
      assert e.id !in s.inflight && e.Start? ==> e.id !in Probes(s);
    }
  }

  /** Over every interleaving of admitted, rejected, late-finishing and lost requests,
      half-open means that between 1 and HalfOpenRequests probes of the current epoch were
      sent, and at most as many are in flight; exactly as many if no request was lost. */
  lemma {:induction false} RunKeepsInv(cfg: Config, s: Sys, es: seq<Event>)
    requires Inv(cfg, s) && Legal(cfg, s, es)
    ensures Inv(cfg, Run(cfg, s, es))
    ensures Whole(s) && NoneLost(es) ==> Whole(Run(cfg, s, es))
    decreases es
  {
    if es != [] {
      StepKeepsInv(cfg, s, es[0]);
      RunKeepsInv(cfg, Next(cfg, s, es[0]), es[1..]);
    }
  }

  /** The breaker never wedges while every request is recorded. From a half-open state a
      request in flight exists, and whichever finishes first, with whatever outcome, ends
      the trial: the next request is admitted at once after a success, and one reset timeout
      after a failure. */
  lemma NeverWedged(cfg: Config, es: seq<Event>, begin: int, next: nat)
    requires cfg.Valid() && Legal(cfg, Begin(begin), es) && NoneLost(es)
    requires Run(cfg, Begin(begin), es).core.state.HalfOpen?
    ensures var s := Run(cfg, Begin(begin), es);
      && s.inflight != map[]
      && forall id, outcome, now | id in s.inflight && s.clock <= now ::
        var t := Next(cfg, s, Finish(id, outcome, now));
        && !t.core.state.HalfOpen?
        && Admits(cfg, t, Start(next, if Counts(outcome) then now + cfg.resetTimeout else now))
  {
    RunKeepsInv(cfg, Begin(begin), es);
    var s := Run(cfg, Begin(begin), es);
    assert s.inflight == map[] ==> Probes(s) == {};
  }

  // -------------------------------------------------------------------- lost requests

  /** A full trial of which nothing is in flight. */
  predicate Wedged(cfg: Config, s: Sys) {
    s.core.state.HalfOpen? && s.core.halfOpenSent >= cfg.halfOpenRequests && s.inflight == map[]
  }

  ghost predicate NothingAdmitted(cfg: Config, s: Sys) {
    forall es | Legal(cfg, s, es) :: Admitted(cfg, s, es) == 0
  }

  /** From such a state nothing is ever admitted again. */
  lemma {:induction false} WedgedStays(cfg: Config, s: Sys, es: seq<Event>)
    requires Legal(cfg, s, es) && Wedged(cfg, s)
    ensures Admitted(cfg, s, es) == 0 && Wedged(cfg, Run(cfg, s, es)) && Run(cfg, s, es).core == s.core
    decreases es
  {
    if es != [] {
      WedgedStays(cfg, Next(cfg, s, es[0]), es[1..]);
    }
  }

  /** And from no other: what is in flight may finish, and time may pass. */
  lemma WedgedExactly(cfg: Config, s: Sys)
    requires cfg.Valid()
    ensures Wedged(cfg, s) <==> NothingAdmitted(cfg, s)
  {
    if Wedged(cfg, s) {
      forall es | Legal(cfg, s, es) ensures Admitted(cfg, s, es) == 0 {
        WedgedStays(cfg, s, es);
      }
    } else if s.core.state.HalfOpen? && s.core.halfOpenSent >= cfg.halfOpenRequests {
      var id :| id in s.inflight;
      var e := Finish(id, None, s.clock);
      var es := AdmitsNow(cfg, Next(cfg, s, e), s.clock);
      assert ([e] + es)[1..] == es && ([e] + es)[0] == e;
      assert Legal(cfg, s, [e] + es) && Admitted(cfg, s, [e] + es) == 1;
    } else {
      var retry := s.core.lastFail + cfg.resetTimeout;
      var es := AdmitsNow(cfg, s, if s.core.state.Open? && s.clock < retry then retry else s.clock);
      assert Legal(cfg, s, es) && Admitted(cfg, s, es) == 1;
    }
  }

  lemma AdmitsNow(cfg: Config, s: Sys, now: int) returns (es: seq<Event>)
    requires s.core.Allows(cfg, now) && s.clock <= now
    ensures Legal(cfg, s, es) && Admitted(cfg, s, es) == 1
  {
    es := [Start(Unused(s.inflight.Keys), now)];
    assert es[1..] == [];
  }

  function Unused(ids: set<nat>): (id: nat)
    ensures id !in ids
  {
    Above(ids, 0)
  }

  function Above(ids: set<nat>, k: nat): (id: nat)
    ensures k <= id && id !in ids
    decreases |ids|
  {
    if k in ids then Above(ids - {k}, k + 1) else k
  }

  /** What is still to happen until a trial is full: failures, the reset, probes. */
  function Missing(cfg: Config, s: Sys): (int, int) {
    match s.core.state
    case Closed => (2, cfg.maxFailures - s.core.failures)
    case Open => (1, 0)
    case HalfOpen => (0, cfg.halfOpenRequests - s.core.halfOpenSent)
  }

  /** Such a state can be reached under every configuration, by losing the probes of a trial
      one after the other. */
  lemma WedgeReached(cfg: Config, begin: int) returns (es: seq<Event>)
    requires cfg.Valid()
    ensures Legal(cfg, Begin(begin), es) && Wedged(cfg, Run(cfg, Begin(begin), es))
  {
    es := ToWedge(cfg, Begin(begin));
  }

  lemma {:induction false} ToWedge(cfg: Config, s: Sys) returns (es: seq<Event>)
    requires Inv(cfg, s) && s.inflight == map[]
    ensures Legal(cfg, s, es) && Wedged(cfg, Run(cfg, s, es))
    decreases Missing(cfg, s).0, Missing(cfg, s).1
  {
    if Wedged(cfg, s) {
      return [];
    }
    var retry := s.core.lastFail + cfg.resetTimeout;
    var now := if s.core.state.Open? && s.clock < retry then retry else s.clock;
    var first := Start(0, now);
    var second := if s.core.state.Closed? then Finish(0, Some(Plain("")), now) else Lose(0, now);
    var t := Next(cfg, s, first);
    StepKeepsInv(cfg, s, first);
    StepKeepsInv(cfg, t, second);
    var u := Next(cfg, t, second);
    assert u.inflight == map[];
    var rest := ToWedge(cfg, u);
    es := [first, second] + rest;
    assert es[1..] == [second] + rest && es[1..][1..] == rest;
  }

  /** While open and before the reset timeout nothing is admitted and the breaker
      stays open, whatever stale results arrive. */
  lemma {:induction false} OpenBlocks(cfg: Config, s: Sys, es: seq<Event>, until: int)
    requires cfg.Valid() && s.core.state.Open? && s.core.lastFail <= s.clock && Legal(cfg, s, es)
    requires until <= s.core.lastFail + cfg.resetTimeout
    requires forall i | 0 <= i < |es| :: es[i].now < until
    ensures Admitted(cfg, s, es) == 0
    ensures Run(cfg, s, es).core.state.Open?
    decreases es
  {
    if es != [] {
      assert es[0].now < until;
      OpenBlocks(cfg, Next(cfg, s, es[0]), es[1..], until);
    }
  }

  /** A failure that comes in while the breaker is open starts the reset timeout anew: before
      it is over nothing is admitted, whatever else arrives, and then a request is. */
  lemma FailureRestarts(cfg: Config, s: Sys, id: nat, outcome: Option<Error>, now: int, es: seq<Event>, next: nat)
    requires cfg.Valid() && s.core.state.Open? && Counts(outcome)
    requires Enabled(s, Finish(id, outcome, now)) && Legal(cfg, Next(cfg, s, Finish(id, outcome, now)), es)
    requires forall i | 0 <= i < |es| :: es[i].now < now + cfg.resetTimeout
    ensures var t := Next(cfg, s, Finish(id, outcome, now));
      Admitted(cfg, t, es) == 0 && t.core.state.Open? && Admits(cfg, t, Start(next, now + cfg.resetTimeout))
  {
    OpenBlocks(cfg, Next(cfg, s, Finish(id, outcome, now)), es, now + cfg.resetTimeout);
  }

  /** A success, or an error the provider is not to blame for, that comes in while the
      breaker is open changes no admission. */
  lemma SuccessKeepsOpen(cfg: Config, s: Sys, id: nat, outcome: Option<Error>, now: int, later: int)
    requires cfg.Valid() && s.core.state.Open? && !Counts(outcome) && Enabled(s, Finish(id, outcome, now))
    ensures var t := Next(cfg, s, Finish(id, outcome, now));
      t.core.state.Open? && (t.core.Allows(cfg, later) <==> later >= s.core.lastFail + cfg.resetTimeout)
  {
  }

  /** What counts against a provider: not success, and no status 400, 401 or 403. */
  lemma CountsExactly(outcome: Option<Error>, status: int, secs: Option<int>, until: Option<int>)
    ensures !Counts(None)
    ensures Counts(Some(Typed(Parsed(status, secs, until)))) <==> status != 400 && status != 401 && status != 403
    ensures outcome.Some? && Find(outcome.value).None? ==> Counts(outcome)
  {
    StatusClasses(status, secs, until);
  }

  // ------------------------------------------------- failures in the closed state

  /** The run of counted failures at the end of the recorded outcomes, given that
      it was k before. */
  function Trailing(k: nat, es: seq<Event>): nat
    decreases es
  {
    if es == [] then k
    else if !es[0].Finish? then Trailing(k, es[1..])
    else if Counts(es[0].outcome) then Trailing(k + 1, es[1..])
    else Trailing(0, es[1..])
  }

  lemma {:induction false} ClosedCountsRun(cfg: Config, s: Sys, es: seq<Event>, k: nat)
    requires Inv(cfg, s) && Legal(cfg, s, es)
    requires s.core.state.Closed? ==> s.core.failures == k
    ensures Run(cfg, s, es).core.state.Closed? ==> Run(cfg, s, es).core.failures == Trailing(k, es) < cfg.maxFailures
    decreases es
  {
    if es != [] {
      var e := es[0];
      StepKeepsInv(cfg, s, e);
      ClosedCountsRun(cfg, Next(cfg, s, e), es[1..],
        if !e.Finish? then k else if Counts(e.outcome) then k + 1 else 0);
    }
  }

  lemma {:induction false} TrailingAppend(k: nat, es: seq<Event>, e: Event)
    ensures Trailing(k, es + [e]) ==
      if !e.Finish? then Trailing(k, es) else if Counts(e.outcome) then Trailing(k, es) + 1 else 0
    decreases es
  {
    if es == [] {
      assert Trailing(k, [e] + []) == Trailing(k, [e]);
    } else {
      var k' := if !es[0].Finish? then k else if Counts(es[0].outcome) then k + 1 else 0;
      assert (es + [e])[1..] == es[1..] + [e];
      TrailingAppend(k', es[1..], e);
    }
  }

  /** From every reachable closed state, the next event opens the breaker exactly
      when it brings the trailing run of failures to MaxFailures. */
  lemma OpensExactlyAtLimit(cfg: Config, begin: int, es: seq<Event>, e: Event)
    requires cfg.Valid() && Legal(cfg, Begin(begin), es)
    requires Run(cfg, Begin(begin), es).core.state.Closed? && Enabled(Run(cfg, Begin(begin), es), e)
    ensures Next(cfg, Run(cfg, Begin(begin), es), e).core.state.Open?
      <==> e.Finish? && Trailing(0, es + [e]) == cfg.maxFailures
    ensures !Next(cfg, Run(cfg, Begin(begin), es), e).core.state.HalfOpen?
  {
    ClosedCountsRun(cfg, Begin(begin), es, 0);
    TrailingAppend(0, es, e);
  }

  lemma {:induction false} PrefixLegal(cfg: Config, s: Sys, es: seq<Event>, i: nat)
    requires i <= |es| && Legal(cfg, s, es)
    ensures Legal(cfg, s, es[..i])
    decreases es
  {
    if i > 0 {
      assert es[..i][1..] == es[1..][..i - 1];
      PrefixLegal(cfg, Next(cfg, s, es[0]), es[1..], i - 1);
    }
  }

  /** On every way from open to closed there is a trial: a request that was half-open's and
      succeeded, finished no earlier than one reset timeout after the trip. */
  lemma {:induction false} ClosesByTrialOnly(cfg: Config, s: Sys, es: seq<Event>) returns (i: nat)
    requires Inv(cfg, s) && Legal(cfg, s, es) && !s.core.state.Closed? && Run(cfg, s, es).core.state.Closed?
    ensures i < |es| && Legal(cfg, s, es[..i]) && Run(cfg, s, es[..i]).core.state.HalfOpen?
    ensures es[i].Finish? && !Counts(es[i].outcome)
    ensures s.core.state.Open? ==> es[i].now >= s.core.lastFail + cfg.resetTimeout
    decreases es
  {
    var e := es[0];
    var next := Next(cfg, s, e);
    StepKeepsInv(cfg, s, e);
    if next.core.state.Closed? {
      i := 0;
    } else {
      var k := ClosesByTrialOnly(cfg, next, es[1..]);
      i := k + 1;
      PrefixLegal(cfg, s, es, i);
      assert es[..i][1..] == es[1..][..k];
      LaterThan(cfg, next, es[1..], k);
    }
  }

  lemma {:induction false} LaterThan(cfg: Config, s: Sys, es: seq<Event>, i: nat)
    requires Legal(cfg, s, es) && i < |es|
    ensures es[i].now >= s.clock
    decreases es
  {
    if i > 0 {
      LaterThan(cfg, Next(cfg, s, es[0]), es[1..], i - 1);
    }
  }

  // ------------------------------------------------- admissions while not closed

  predicate NeverClosed(cfg: Config, s: Sys, es: seq<Event>)
    decreases es
  {
    !s.core.state.Closed? && (es == [] || NeverClosed(cfg, Next(cfg, s, es[0]), es[1..]))
  }

  /** The most that fits when the next trial can begin at `entry` at the earliest. */
  function Trials(h: int, r: int, entry: int, end: int): int
    requires r > 0
  {
    if end < entry then 0 else h * ((end - entry) / r + 1)
  }

  lemma TrialsMono(h: int, r: int, entry: int, later: int, end: int)
    requires r > 0 && h > 0 && entry <= later
    ensures 0 <= Trials(h, r, later, end) <= Trials(h, r, entry, end)
  {
    if later <= end {
      DivMono(0, end - later, r);
      DivMono(end - later, end - entry, r);
      MulMono((end - later) / r + 1, (end - entry) / r + 1, h);
    } else if entry <= end {
      DivMono(0, end - entry, r);
      MulMono(0, (end - entry) / r + 1, h);
    }
  }

  function Entry(cfg: Config, s: Sys): int {
    if s.core.lastFail + cfg.resetTimeout < s.clock then s.clock else s.core.lastFail + cfg.resetTimeout
  }

  /** The most that can still be admitted up to time `end` without closing. */
  function Budget(cfg: Config, s: Sys, end: int): int
    requires cfg.Valid()
  {
    var h, r := cfg.halfOpenRequests, cfg.resetTimeout;
    if s.core.state.HalfOpen?
    then h - s.core.halfOpenSent + Trials(h, r, s.clock + r, end)
    else Trials(h, r, Entry(cfg, s), end)
  }

  lemma BudgetStep(cfg: Config, s: Sys, e: Event, end: int)
    requires Inv(cfg, s) && Enabled(s, e) && e.now <= end
    requires !s.core.state.Closed? && !Next(cfg, s, e).core.state.Closed?
    ensures (if Admits(cfg, s, e) then 1 else 0) + Budget(cfg, Next(cfg, s, e), end) <= Budget(cfg, s, end)
  {
    var h, r := cfg.halfOpenRequests, cfg.resetTimeout;
    var t := Next(cfg, s, e);
    if s.core.state.HalfOpen? {
      TrialsMono(h, r, s.clock + r, e.now + r, end);
    } else {
      TrialsMono(h, r, Entry(cfg, s), Entry(cfg, t), end);
      if Admits(cfg, s, e) {
        TrialsMono(h, r, Entry(cfg, s), e.now, end);
        NextTrial(h, r, e.now, end);
      }
    }
  }

  /** A trial that begins at `now` leaves the rest of the window to trials that
      begin one reset timeout later. */
  lemma NextTrial(h: int, r: int, now: int, end: int)
    requires r > 0 && h > 0 && now <= end
    ensures Trials(h, r, now, end) == h + Trials(h, r, now + r, end)
  {
    DivShift(end - now, r);
    var q := (end - now) / r;
    assert h * (q + 1) == h * q + h;
    if end < now + r {
      DivUnique(0, r, end - now);
    }
  }

  lemma {:induction false} AdmittedWithinBudget(cfg: Config, s: Sys, es: seq<Event>, end: int)
    requires Inv(cfg, s) && Legal(cfg, s, es) && NeverClosed(cfg, s, es)
    requires forall i | 0 <= i < |es| :: es[i].now <= end
    ensures Admitted(cfg, s, es) <= Budget(cfg, s, end)
    decreases es
  {
    if es == [] {
      var entry := if s.core.state.HalfOpen? then s.clock + cfg.resetTimeout else Entry(cfg, s);
      TrialsMono(cfg.halfOpenRequests, cfg.resetTimeout, entry, entry, end);
    } else {
      assert es[0].now <= end;
      StepKeepsInv(cfg, s, es[0]);
      BudgetStep(cfg, s, es[0], end);
      AdmittedWithinBudget(cfg, Next(cfg, s, es[0]), es[1..], end);
    }
  }

  /** In any window of length `span` during which the breaker is never closed, at
      most HalfOpenRequests * (span / ResetTimeout + 1) requests are admitted. The
      window starts after any history `before` and lasts through `during`. */
  lemma AdmissionsWhileNotClosed(cfg: Config, begin: int, before: seq<Event>, during: seq<Event>, span: nat)
    requires cfg.Valid() && Legal(cfg, Begin(begin), before)
    requires var s := Run(cfg, Begin(begin), before);
      && Legal(cfg, s, during) && NeverClosed(cfg, s, during)
      && (during != [] ==> forall i | 0 <= i < |during| :: during[i].now <= during[0].now + span)
    ensures Admitted(cfg, Run(cfg, Begin(begin), before), during)
      <= cfg.halfOpenRequests * (span / cfg.resetTimeout + 1)
  {
    RunKeepsInv(cfg, Begin(begin), before);
    var s := Run(cfg, Begin(begin), before);
    var h, r := cfg.halfOpenRequests, cfg.resetTimeout;
    DivMono(0, span, r);
    MulMono(0, span / r + 1, h);
    if during != [] {
      var first, end := during[0].now, during[0].now + span;
      var late := s.(clock := first);
      LaterClock(cfg, s, first, during);
      AdmittedWithinBudget(cfg, late, during, end);
      NextTrial(h, r, first, end);
      if !s.core.state.HalfOpen? {
        TrialsMono(h, r, first, Entry(cfg, late), end);
      }
      assert Trials(h, r, first, end) == h * (span / r + 1);
    }
  }

  /** Idle time before the first event changes nothing. */
  lemma LaterClock(cfg: Config, s: Sys, now: int, es: seq<Event>)
    requires Inv(cfg, s) && s.clock <= now && es != [] && es[0].now == now
    ensures var t := s.(clock := now);
      && Inv(cfg, t)
      && Next(cfg, t, es[0]) == Next(cfg, s, es[0])
      && Admitted(cfg, t, es) == Admitted(cfg, s, es)
      && (Legal(cfg, s, es) ==> Legal(cfg, t, es))
      && (NeverClosed(cfg, s, es) ==> NeverClosed(cfg, t, es))
  {
    assert Probes(s.(clock := now)) == Probes(s);
  }
}
