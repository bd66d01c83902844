/** Tool dispatch and the bounded model/tool loop of agent.go. */
module Agent {
  import opened Options
  import opened Errors
  import opened Messages
  import opened Requests
  import opened History

  // -------------------------------------------------------------------- dispatch

  /** What the caller's tool function does with one call. */
  datatype ToolOutcome = Returned(output: string) | Errored(err: Error) | Panicked

  datatype ToolResult = ToolResult(idx: nat, callID: string, name: string, output: string)

  /** The tool function, if there is one: what it does with the call at each index. */
  type Tools = Option<nat -> ToolOutcome>

  /** One execution: a missing function and a panic become errors, an error is wrapped. */
  function Exec(tools: Tools, i: nat, tc: ToolCall): Outcome<ToolResult> {
    if tools.None? then Fail(Plain("tool function is nil"))
    else match tools.value(i)
      case Returned(output) => Ok(ToolResult(i, tc.id, tc.name, output))
      case Errored(err) => Fail(Wrapped(err))
      case Panicked => Fail(Plain("panic"))
  }

  predicate AllExec(tools: Tools, calls: seq<ToolCall>) {
    forall i | 0 <= i < |calls| :: Exec(tools, i, calls[i]).Ok?
  }

  /** What dispatch promises, however the calls were scheduled. */
  ghost predicate Dispatched(tools: Tools, calls: seq<ToolCall>, r: Outcome<seq<ToolResult>>) {
    && (r.Ok? <==> AllExec(tools, calls))
    && (r.Ok? ==> |r.value| == |calls|
                  && forall i | 0 <= i < |calls| :: Exec(tools, i, calls[i]) == Ok(r.value[i]))
    && (r.Fail? ==> FailedWith(tools, calls, r.err))
  }

  /** The error is that of some call. */
  ghost predicate FailedWith(tools: Tools, calls: seq<ToolCall>, err: Error) {
    exists i | 0 <= i < |calls| :: Exec(tools, i, calls[i]) == Fail(err)
  }

  /** Sequential dispatch: the error is that of the first call that fails, and no later
      call runs. */
  method InOrder(tools: Tools, calls: seq<ToolCall>) returns (r: Outcome<seq<ToolResult>>, ghost ran: nat)
    ensures Dispatched(tools, calls, r)
    ensures ran <= |calls| && (r.Ok? ==> ran == |calls|)
    ensures r.Fail? ==> ran > 0 && Exec(tools, ran - 1, calls[ran - 1]) == Fail(r.err)
    ensures forall i | 0 <= i < ran - (if r.Ok? then 0 else 1) :: Exec(tools, i, calls[i]).Ok?
  {
    var results := [];
    ran := 0;
    for i := 0 to |calls|
      invariant ran == i == |results|
      invariant forall k | 0 <= k < i :: Exec(tools, k, calls[k]) == Ok(results[k])
    {
      ran := ran + 1;
      var one := Exec(tools, i, calls[i]);
      if one.Fail? {
        return Fail(one.err), ran;
      }
      results := results + [one.value];
    }
    return Ok(results), ran;
  }

  /** How far parallel dispatch has come. */
  ghost predicate Underway(tools: Tools, calls: seq<ToolCall>, launched: nat, running: set<nat>, failing: set<nat>,
                           results: seq<ToolResult>, firstErr: Option<Error>)
  {
    && launched <= |calls| == |results|
    && running !! failing
    && (forall i | i in running :: i < launched)
    && (forall i | i in failing :: i < launched && Exec(tools, i, calls[i]).Fail?)
    && (forall i | 0 <= i < launched && i !in running && Exec(tools, i, calls[i]).Ok? ::
          Exec(tools, i, calls[i]) == Ok(results[i]))
    && (forall i | 0 <= i < launched && i !in running && Exec(tools, i, calls[i]).Fail? ::
          i in failing || firstErr.Some?)
    && (firstErr.Some? ==> FailedWith(tools, calls, firstErr.value))
  }

  lemma Launched(tools: Tools, calls: seq<ToolCall>, launched: nat, running: set<nat>, failing: set<nat>,
                 results: seq<ToolResult>, firstErr: Option<Error>)
    requires Underway(tools, calls, launched, running, failing, results, firstErr) && launched < |calls|
    ensures Underway(tools, calls, launched + 1, running + {launched}, failing, results, firstErr)
  {
  }

  /** One worker's execution: its slot is filled, or its error is still to be reported. */
  lemma Executed(tools: Tools, calls: seq<ToolCall>, launched: nat, running: set<nat>, failing: set<nat>,
                 results: seq<ToolResult>, firstErr: Option<Error>, worker: nat)
    requires Underway(tools, calls, launched, running, failing, results, firstErr) && worker in running
    ensures match Exec(tools, worker, calls[worker])
      case Ok(one) =>
        Underway(tools, calls, launched, running - {worker}, failing, results[worker := one], firstErr)
      case Fail(_) =>
        Underway(tools, calls, launched, running - {worker}, failing + {worker}, results, firstErr)
  {
  }

  lemma Reported(tools: Tools, calls: seq<ToolCall>, launched: nat, running: set<nat>, failing: set<nat>,
                 results: seq<ToolResult>, firstErr: Option<Error>, worker: nat)
    requires Underway(tools, calls, launched, running, failing, results, firstErr) && worker in failing
    ensures Exec(tools, worker, calls[worker]).Fail?
    ensures Underway(tools, calls, launched, running, failing - {worker}, results,
                     Some(if firstErr.Some? then firstErr.value else Exec(tools, worker, calls[worker]).err))
  {
    if firstErr.None? {
      assert FailedWith(tools, calls, Exec(tools, worker, calls[worker]).err);
    }
  }

  lemma AllDone(tools: Tools, calls: seq<ToolCall>, results: seq<ToolResult>, firstErr: Option<Error>)
    requires Underway(tools, calls, |calls|, {}, {}, results, firstErr)
    ensures Dispatched(tools, calls, if firstErr.Some? then Fail(firstErr.value) else Ok(results))
  {
  }

  /** One atomic step of a worker: execute and, on success, fill its own slot; or report
      its error under the mutex. */
  method Work(tools: Tools, calls: seq<ToolCall>, results: array<ToolResult>, worker: nat, ghost launched: nat,
              running: set<nat>, failing: set<nat>, firstErr: Option<Error>)
      returns (running': set<nat>, failing': set<nat>, firstErr': Option<Error>)
    requires Underway(tools, calls, launched, running, failing, results[..], firstErr)
    requires worker in running + failing
    modifies results
    ensures Underway(tools, calls, launched, running', failing', results[..], firstErr')
    ensures worker in running ==> running' == running - {worker} && failing' <= failing + {worker}
    ensures worker in failing ==> running' == running && failing' == failing - {worker}
  {
    ghost var before := results[..];
    running', failing', firstErr' := running, failing, firstErr;
    var one := Exec(tools, worker, calls[worker]);
    if worker in running {
      Executed(tools, calls, launched, running, failing, before, firstErr, worker);
      running' := running - {worker};
      if one.Ok? {
        results[worker] := one.value;
        assert results[..] == before[worker := one.value];
      } else {
        failing' := failing + {worker};
      }
    } else {
      Reported(tools, calls, launched, running, failing, before, firstErr, worker);
      failing' := failing - {worker};
      if firstErr.None? {
        firstErr' := Some(one.err);
      }
    }
  }

  /** Every worker launched is running or has run. */
  ghost predicate Covered(launched: nat, running: set<nat>, ran: set<nat>) {
    forall i | 0 <= i < launched :: i in ran || i in running
  }

  lemma CoveredStep(launched: nat, running: set<nat>, ran: set<nat>, worker: nat)
    requires Covered(launched, running, ran)
    ensures Covered(launched, running, ran + {worker}) && Covered(launched, running - {worker}, ran + {worker})
    ensures Covered(launched + 1, running + {launched}, ran)
  {
  }

  /** Parallel dispatch. Workers are launched in call order; each then takes one step if
      it succeeds and two if it fails. Any step that is possible may come next. Whatever
      fails, every call has run when the method returns. */
  method Concurrently(tools: Tools, calls: seq<ToolCall>) returns (r: Outcome<seq<ToolResult>>, ghost ran: set<nat>)
    ensures Dispatched(tools, calls, r)
    ensures forall i | 0 <= i < |calls| :: i in ran
  {
    var n := |calls|;
    var results := new ToolResult[n](_ => ToolResult(0, "", "", ""));
    var launched: nat := 0;
    var running: set<nat>, failing: set<nat> := {}, {};
    var firstErr: Option<Error> := None;
    ran := {};
    while launched < n || running + failing != {}
      invariant Covered(launched, running, ran)
      invariant Underway(tools, calls, launched, running, failing, results[..], firstErr)
      decreases n - launched, |running|, |failing|
    {
      var launch: bool := *;
      if launched < n && (launch || running + failing == {}) {
        Launched(tools, calls, launched, running, failing, results[..], firstErr);
        CoveredStep(launched, running, ran, launched);
        running := running + {launched};
        launched := launched + 1;
      } else {
        var worker: nat :| worker in running + failing;
        CoveredStep(launched, running, ran, worker);
        ran := ran + {worker};
        running, failing, firstErr := Work(tools, calls, results, worker, launched, running, failing, firstErr);
      }
    }
    AllDone(tools, calls, results[..], firstErr);
    return if firstErr.Some? then Fail(firstErr.value) else Ok(results[..]), ran;
  }

  /** dispatchTools. */
  method DispatchTools(tools: Tools, calls: seq<ToolCall>, disableParallel: bool) returns (r: Outcome<seq<ToolResult>>)
    ensures Dispatched(tools, calls, r)
  {
    if disableParallel || |calls| == 1 {
      ghost var ran;
      r, ran := InOrder(tools, calls);
    } else {
      ghost var ran;
      r, ran := Concurrently(tools, calls);
    }
  }

  /** Two dispatches of the same calls with the same tool outcomes agree on success and,
      when they succeed, on every result in call order. */
  lemma SchedulesAgree(tools: Tools, calls: seq<ToolCall>, r: Outcome<seq<ToolResult>>, other: Outcome<seq<ToolResult>>)
    requires Dispatched(tools, calls, r) && Dispatched(tools, calls, other)
    ensures r.Ok? == other.Ok? && (r.Ok? ==> r == other)
  {
    if r.Ok? {
      forall i | 0 <= i < |calls| ensures r.value[i] == other.value[i] {
        assert Exec(tools, i, calls[i]) == Ok(r.value[i]);
      }
      assert r.value == other.value;
    }
  }

  // ----------------------------------------------------- dispatch, by what the tools do

  /** What the tool function does with call i comes out as its result, under the id and the
      name of the call. */
  lemma ResultsShow(tools: Tools, calls: seq<ToolCall>, r: Outcome<seq<ToolResult>>)
    requires Dispatched(tools, calls, r)
    ensures r.Ok? <==> calls == [] || (tools.Some? && forall i | 0 <= i < |calls| :: tools.value(i).Returned?)
    ensures r.Ok? ==> |r.value| == |calls| && forall i | 0 <= i < |calls| ::
      r.value[i] == ToolResult(i, calls[i].id, calls[i].name, tools.value(i).output)
  {
    if r.Ok? {
      assert calls != [] ==> Exec(tools, 0, calls[0]).Ok?;
      forall i | 0 <= i < |calls|
        ensures tools.Some? && tools.value(i).Returned?
        ensures r.value[i] == ToolResult(i, calls[i].id, calls[i].name, tools.value(i).output)
      {
        assert Exec(tools, i, calls[i]) == Ok(r.value[i]);
      }
    } else {
      var i :| 0 <= i < |calls| && Exec(tools, i, calls[i]) == Fail(r.err);
      assert tools.None? || !tools.value(i).Returned?;
    }
  }

  /** An error is the wrapped one of a call, or says that a call panicked or that there is
      no tool function. */
  lemma ErrorShows(tools: Tools, calls: seq<ToolCall>, err: Error)
    requires FailedWith(tools, calls, err)
    ensures tools.None? ==> err == Plain("tool function is nil")
    ensures tools.Some? ==> exists i | 0 <= i < |calls| ::
      (tools.value(i).Errored? && err == Wrapped(tools.value(i).err)) || (tools.value(i).Panicked? && err == Plain("panic"))
  {
    var i :| 0 <= i < |calls| && Exec(tools, i, calls[i]) == Fail(err);
    if tools.Some? {
      assert tools.value(i).Errored? || tools.value(i).Panicked?;
    }
  }

  // ------------------------------------------------------------------ the agent loop

  datatype AgentConfig = AgentConfig(maxIterations: int, disableParallel: bool, maxHistory: int)

  /** applyAgentDefaults. */
  function WithDefaults(opts: seq<AgentConfig>): (c: AgentConfig)
    ensures c.maxIterations > 0
    ensures opts != [] ==> c == opts[0].(maxIterations := c.maxIterations)
    ensures opts != [] && opts[0].maxIterations > 0 ==> c == opts[0]
    ensures opts == [] || opts[0].maxIterations <= 0 ==> c.maxIterations == 10
    ensures opts == [] ==> !c.disableParallel && c.maxHistory == 0
  {
    if opts == [] then AgentConfig(10, false, 0)
    else if opts[0].maxIterations > 0 then opts[0]
    else opts[0].(maxIterations := 10)
  }

  datatype Answer = Answer(content: string, toolCalls: seq<ToolCall>)

  /** What the model answers, given the iteration and the messages, and what the tool
      function then does with each call. */
  datatype Oracles = Oracles(model: (nat, Msgs) -> Outcome<Answer>, tools: Option<nat -> nat -> ToolOutcome>)

  function ToolsAt(o: Oracles, k: nat): Tools {
    if o.tools.None? then None else Some(o.tools.value(k))
  }

  function AssistantMessage(a: Answer): MessageV {
    MessageV("assistant", if a.content == "" then [] else [TextV(a.content)], a.toolCalls, "", "")
  }

  function ToolResultMessage(r: ToolResult): MessageV {
    MessageV("tool", [TextV(r.output)], [], r.callID, r.name)
  }

  /** The results of calls that all succeed, as messages. */
  function ResultMessages(tools: Tools, calls: seq<ToolCall>): Msgs
    requires AllExec(tools, calls)
  {
    seq(|calls|, i requires 0 <= i < |calls| => ToolResultMessage(Exec(tools, i, calls[i]).value))
  }

  /** In iteration k, given these messages, the model asks for tools and all succeed. */
  predicate Goes(o: Oracles, k: nat, ms: Msgs) {
    var m := o.model(k, ms);
    m.Ok? && m.value.toolCalls != [] && AllExec(ToolsAt(o, k), m.value.toolCalls)
  }

  /** What iteration k then appends. */
  function Round(o: Oracles, k: nat, ms: Msgs): Msgs
    requires Goes(o, k, ms)
  {
    var a := o.model(k, ms).value;
    [AssistantMessage(a)] + ResultMessages(ToolsAt(o, k), a.toolCalls)
  }

  /** The messages of model call k, if a run that starts from this history gets there,
      where trim is applied before each call. */
  function Request(o: Oracles, trim: Msgs -> Msgs, history: Msgs, k: nat): Option<Msgs> {
    if k == 0 then Some(trim(history))
    else match Request(o, trim, history, k - 1)
      case Some(ms) => if Goes(o, k - 1, ms) then Some(trim(ms + Round(o, k - 1, ms))) else None
      case None => None
  }

  /** The trim of a run with this limit. */
  function To(max: int): Msgs -> Msgs {
    ms => Trim(ms, max)
  }

  datatype End = Final(content: string) | ModelFailed(err: Error) | ToolFailed(err: Error) | OutOfRounds

  /** How a run may end in iteration k, whose request is given, and the history returned. */
  ghost predicate Ended(o: Oracles, c: AgentConfig, k: nat, request: Msgs, end: End, msgs: Msgs) {
    var m := o.model(k, request);
    match end
    case Final(content) => m == Ok(Answer(content, [])) && msgs == request
    case ModelFailed(err) => m == Fail(err) && msgs == request
    case ToolFailed(err) =>
      && m.Ok? && m.value.toolCalls != []
      && msgs == request + [AssistantMessage(m.value)]
      && FailedWith(ToolsAt(o, k), m.value.toolCalls, err)
    case OutOfRounds => k + 1 == c.maxIterations && Goes(o, k, request) && msgs == request + Round(o, k, request)
  }

  /** RunAgent, for a request that is given; calls counts the calls of the model. */
  method RunAgent(history: Msgs, opts: seq<AgentConfig>, o: Oracles) returns (end: End, msgs: Msgs, calls: nat)
    ensures 0 < calls <= WithDefaults(opts).maxIterations
    ensures var last := Request(o, To(WithDefaults(opts).maxHistory), history, calls - 1);
      last.Some? && Ended(o, WithDefaults(opts), calls - 1, last.value, end, msgs)
  {
    var c := WithDefaults(opts);
    msgs := history;
    for i := 0 to c.maxIterations
      invariant Untrimmed(o, To(c.maxHistory), history, i, msgs)
    {
      Trimmed(o, To(c.maxHistory), history, i, msgs);
      msgs := TrimHistory(msgs, c.maxHistory);
      ghost var request := msgs;
      var ended;
      ended, msgs := Iterate(o, c, i, msgs);
      if ended.Some? {
        return ended.value, msgs, i + 1;
      }
      Repeats(o, To(c.maxHistory), history, i, request, msgs);
    }
    return OutOfRounds, msgs, c.maxIterations;
  }

  /** The history at the top of iteration k, before it is trimmed. */
  ghost predicate Untrimmed(o: Oracles, trim: Msgs -> Msgs, history: Msgs, k: nat, msgs: Msgs) {
    if k == 0 then msgs == history
    else match Request(o, trim, history, k - 1)
      case Some(ms) => Goes(o, k - 1, ms) && msgs == ms + Round(o, k - 1, ms)
      case None => false
  }

  lemma Trimmed(o: Oracles, trim: Msgs -> Msgs, history: Msgs, k: nat, msgs: Msgs)
    requires Untrimmed(o, trim, history, k, msgs)
    ensures Request(o, trim, history, k) == Some(trim(msgs))
  {
  }

  lemma Repeats(o: Oracles, trim: Msgs -> Msgs, history: Msgs, k: nat, request: Msgs, msgs: Msgs)
    requires Request(o, trim, history, k) == Some(request)
    requires Goes(o, k, request) && msgs == request + Round(o, k, request)
    ensures Untrimmed(o, trim, history, k + 1, msgs)
  {
  }

  /** The body of the loop after the trim. */
  method Iterate(o: Oracles, c: AgentConfig, i: nat, request: Msgs) returns (ended: Option<End>, msgs: Msgs)
    ensures ended.None? ==> Goes(o, i, request) && msgs == request + Round(o, i, request)
    ensures ended.Some? ==> !ended.value.OutOfRounds? && Ended(o, c, i, request, ended.value, msgs)
  {
    msgs := request;
    var resp := o.model(i, msgs);
    if resp.Fail? {
      return Some(ModelFailed(resp.err)), msgs;
    }
    var a := resp.value;
    if |a.toolCalls| == 0 {
      return Some(Final(a.content)), msgs;
    }
    msgs := msgs + [AssistantMessage(a)];
    var results := DispatchTools(ToolsAt(o, i), a.toolCalls, c.disableParallel);
    if results.Fail? {
      return Some(ToolFailed(results.err)), msgs;
    }
    msgs := AppendResults(msgs, ToolsAt(o, i), a.toolCalls, results.value);
    return None, msgs;
  }

  method AppendResults(before: Msgs, tools: Tools, calls: seq<ToolCall>, results: seq<ToolResult>) returns (msgs: Msgs)
    requires Dispatched(tools, calls, Ok(results))
    ensures msgs == before + ResultMessages(tools, calls)
  {
    msgs := before;
    for i := 0 to |results|
      invariant msgs == before + ResultMessages(tools, calls)[..i]
    {
      assert Exec(tools, i, calls[i]) == Ok(results[i]);
      msgs := msgs + [ToolResultMessage(results[i])];
    }
  }

  // ------------------------------------------------------------------ over whole runs

  /** Whatever the schedules, two runs with the same outcomes make the same model calls
      and end alike, but for which failing tool is reported. */
  lemma RunsAgree(o: Oracles, c: AgentConfig, history: Msgs, i: nat, j: nat, end: End, end': End, msgs: Msgs, msgs': Msgs)
    requires i < c.maxIterations && j < c.maxIterations
    requires var last := Request(o, To(c.maxHistory), history, i); last.Some? && Ended(o, c, i, last.value, end, msgs)
    requires var last := Request(o, To(c.maxHistory), history, j); last.Some? && Ended(o, c, j, last.value, end', msgs')
    ensures i == j && msgs == msgs'
    ensures end == end' || (end.ToolFailed? && end'.ToolFailed?)
  {
    if i < j {
      Reached(o, To(c.maxHistory), history, i, j);
    } else if j < i {
      Reached(o, To(c.maxHistory), history, j, i);
    }
  }

  lemma {:induction false} Reached(o: Oracles, trim: Msgs -> Msgs, history: Msgs, i: nat, j: nat)
    requires i < j && Request(o, trim, history, j).Some?
    ensures Request(o, trim, history, i).Some? && Goes(o, i, Request(o, trim, history, i).value)
  {
    if i < j - 1 {
      Reached(o, trim, history, i, j - 1);
    }
  }

  /** A round is one turn: the call with exactly its results, same ids and order. */
  lemma RoundIsTurn(o: Oracles, k: nat, ms: Msgs)
    requires Goes(o, k, ms)
    ensures var t := Round(o, k, ms);
      Turn(t) && System(t) == [] && Rest(t) == t && GroupTurns(t) == [t]
  {
    var t := Round(o, k, ms);
    assert t[1..] == ResultMessages(ToolsAt(o, k), t[0].toolCalls);
    TurnWellFormed(t);
    FirstGroup(t);
    assert t[..|t|] == t && t[|t|..] == [];
    AllRest(t);
  }

  /** A run goes on exactly when the model asks for tools and every call returns. */
  lemma GoesExactly(o: Oracles, k: nat, ms: Msgs)
    ensures Goes(o, k, ms) <==>
      && o.model(k, ms).Ok? && o.model(k, ms).value.toolCalls != []
      && o.tools.Some? && forall i | 0 <= i < |o.model(k, ms).value.toolCalls| :: o.tools.value(k)(i).Returned?
  {
    if o.model(k, ms).Ok? {
      var calls := o.model(k, ms).value.toolCalls;
      forall i | 0 <= i < |calls|
        ensures Exec(ToolsAt(o, k), i, calls[i]).Ok? <==> o.tools.Some? && o.tools.value(k)(i).Returned?
      {
      }
      if calls != [] && o.tools.None? {
        assert !Exec(ToolsAt(o, k), 0, calls[0]).Ok?;
      }
    }
  }

  /** t is what the model answered in iteration k, and then what the tools returned: the
      text and the calls of the answer, and for call i its output, id and name. */
  ghost predicate Carries(o: Oracles, k: nat, a: Answer, t: Msgs) {
    && |t| == 1 + |a.toolCalls|
    && t[0].role == "assistant" && t[0].toolCalls == a.toolCalls
    && t[0].content == (if a.content == "" then [] else [TextV(a.content)])
    && o.tools.Some?
    && forall i | 0 <= i < |a.toolCalls| ::
         && o.tools.value(k)(i).Returned?
         && t[i + 1] == MessageV("tool", [TextV(o.tools.value(k)(i).output)], [], a.toolCalls[i].id, a.toolCalls[i].name)
  }

  lemma RoundCarries(o: Oracles, k: nat, ms: Msgs)
    requires Goes(o, k, ms)
    ensures Carries(o, k, o.model(k, ms).value, Round(o, k, ms))
  {
    GoesExactly(o, k, ms);
    var a := o.model(k, ms).value;
    forall i | 0 <= i < |a.toolCalls|
      ensures Round(o, k, ms)[i + 1] == MessageV("tool", [TextV(o.tools.value(k)(i).output)], [], a.toolCalls[i].id, a.toolCalls[i].name)
    {
      assert Exec(ToolsAt(o, k), i, a.toolCalls[i]).Ok?;
    }
  }

  /** What one more round does to the two parts of the history. */
  lemma RoundSplits(o: Oracles, k: nat, ms: Msgs)
    requires Goes(o, k, ms)
    ensures System(ms + Round(o, k, ms)) == System(ms)
    ensures Rest(ms + Round(o, k, ms)) == Rest(ms) + Round(o, k, ms)
    ensures WellFormed(Rest(ms)) ==> WellFormed(Rest(ms + Round(o, k, ms)))
  {
    RoundIsTurn(o, k, ms);
    SplitAppend(ms, Round(o, k, ms));
    TurnWellFormed(Round(o, k, ms));
    if WellFormed(Rest(ms)) {
      WellFormedAppend(Rest(ms), Round(o, k, ms));
    }
  }

  /** ms has the system messages of the history, and is as well formed. */
  predicate Keeps(history: Msgs, ms: Msgs) {
    System(ms) == System(history) && (WellFormed(Rest(history)) ==> WellFormed(Rest(ms)))
  }

  lemma NextKeeps(o: Oracles, max: int, k: nat, history: Msgs, before: Msgs)
    requires Goes(o, k, before) && Keeps(history, before)
    ensures Keeps(history, Trim(before + Round(o, k, before), max))
  {
    RoundSplits(o, k, before);
    TrimOnlyKeeps(before + Round(o, k, before), max);
  }

  lemma TrimOnlyKeeps(ms: Msgs, max: int)
    ensures Keeps(ms, Trim(ms, max))
  {
    TrimKeeps(ms, max);
    if WellFormed(Rest(ms)) {
      TrimWellFormed(ms, max);
    }
  }

  /** What every round keeps holds of every request. */
  lemma {:induction false} EveryRequest(o: Oracles, trim: Msgs -> Msgs, history: Msgs, k: nat, p: Msgs -> bool)
    requires p(trim(history))
    requires forall j: nat, ms | Goes(o, j, ms) && p(ms) :: p(trim(ms + Round(o, j, ms)))
    requires Request(o, trim, history, k).Some?
    ensures p(Request(o, trim, history, k).value)
  {
    if k > 0 {
      EveryRequest(o, trim, history, k - 1, p);
    }
  }

  /** Every model call is given all the system messages and, of the rest, a well-formed
      history. */
  lemma RequestsWellFormed(o: Oracles, max: int, history: Msgs, k: nat)
    requires Request(o, To(max), history, k).Some?
    ensures System(Request(o, To(max), history, k).value) == System(history)
    ensures WellFormed(Rest(history)) ==> WellFormed(Rest(Request(o, To(max), history, k).value))
  {
    var p := ms => Keeps(history, ms);
    TrimOnlyKeeps(history, max);
    forall j: nat, ms | Goes(o, j, ms) && p(ms) ensures p(To(max)(ms + Round(o, j, ms))) {
      NextKeeps(o, max, j, history, ms);
    }
    EveryRequest(o, To(max), history, k, p);
    assert p(Request(o, To(max), history, k).value);
  }

  /** The history returned is well formed exactly when no tool failed: then the last call
      turn stands without its results. */
  lemma ReturnedWellFormedExactly(o: Oracles, c: AgentConfig, history: Msgs, k: nat, end: End, msgs: Msgs)
    requires WellFormed(Rest(history))
    requires var last := Request(o, To(c.maxHistory), history, k); last.Some? && Ended(o, c, k, last.value, end, msgs)
    ensures System(msgs) == System(history)
    ensures WellFormed(Rest(msgs)) <==> !end.ToolFailed?
  {
    var request := Request(o, To(c.maxHistory), history, k).value;
    RequestsWellFormed(o, c.maxHistory, history, k);
    match end
    case ToolFailed(_) =>
      var call := AssistantMessage(o.model(k, request).value);
      SplitAppend(request, [call]);
      SplitSingle(call);
      Dangling(Rest(request), call);
    case OutOfRounds =>
      RoundSplits(o, k, request);
    case _ =>
  }

  lemma {:induction false} Dangling(ms: Msgs, call: MessageV)
    requires WellFormed(ms) && IsCall(call)
    ensures !WellFormed(ms + [call])
  {
    if ms == [] {
      assert ms + [call] == [call];
    } else {
      var n := Span(ms[0]);
      Dangling(ms[n..], call);
      assert (ms + [call])[n..] == ms[n..] + [call];
    }
  }

  /** The turn just made is at the end of the next request, unless the system messages
      use up the limit; then that request is the system messages alone. */
  lemma NewestTurnSent(o: Oracles, max: int, history: Msgs, k: nat)
    requires Request(o, To(max), history, k + 1).Some?
    ensures var before, ms := Request(o, To(max), history, k), Request(o, To(max), history, k + 1).value;
      && before.Some? && Goes(o, k, before.value)
      && if 0 < max <= |System(history)| then ms == System(history)
         else var gs := GroupTurns(Rest(ms)); gs != [] && gs[|gs| - 1] == Round(o, k, before.value)
  {
    var before := Request(o, To(max), history, k).value;
    RequestsWellFormed(o, max, history, k);
    NextEndsWithRound(o, max, k, before);
  }

  lemma NextEndsWithRound(o: Oracles, max: int, k: nat, ms: Msgs)
    requires Goes(o, k, ms)
    ensures var next := Trim(ms + Round(o, k, ms), max);
      if 0 < max <= |System(ms)| then next == System(ms)
      else var gs := GroupTurns(Rest(next)); gs != [] && gs[|gs| - 1] == Round(o, k, ms)
  {
    var all := ms + Round(o, k, ms);
    RoundSplits(o, k, ms);
    if 0 < max <= |System(ms)| {
      SystemAlone(all, max);
    } else {
      RoundIsTurn(o, k, ms);
      GroupsAppend(Rest(ms), Round(o, k, ms));
      NewestKeptExactly(all, max);
    }
  }

  /** So every request after the first ends with what the model was answered: the calls it
      asked for and the outputs of the tools, unless the system messages use up the limit. */
  lemma OutputsReachModel(o: Oracles, max: int, history: Msgs, k: nat)
    requires Request(o, To(max), history, k + 1).Some? && !(0 < max <= |System(history)|)
    ensures var before, ms := Request(o, To(max), history, k), Request(o, To(max), history, k + 1).value;
      && before.Some? && o.model(k, before.value).Ok?
      && EndCarries(o, k, o.model(k, before.value).value, ms)
  {
    RequestsWellFormed(o, max, history, k);
    NextCarries(o, max, k, Request(o, To(max), history, k).value);
  }

  /** The last messages are an answer and the outputs of its tools. */
  ghost predicate EndCarries(o: Oracles, k: nat, a: Answer, ms: Msgs) {
    |ms| > |a.toolCalls| && Carries(o, k, a, ms[|ms| - 1 - |a.toolCalls|..])
  }

  lemma NextCarries(o: Oracles, max: int, k: nat, ms: Msgs)
    requires Goes(o, k, ms) && !(0 < max <= |System(ms)|)
    ensures EndCarries(o, k, o.model(k, ms).value, Trim(ms + Round(o, k, ms), max))
  {
    RoundCarries(o, k, ms);
    RoundAtEnd(o, max, k, ms);
    CarriedAtEnd(o, k, o.model(k, ms).value, Round(o, k, ms), Trim(ms + Round(o, k, ms), max));
  }

  lemma CarriedAtEnd(o: Oracles, k: nat, a: Answer, t: Msgs, next: Msgs)
    requires Carries(o, k, a, t) && EndsWith(next, t)
    ensures EndCarries(o, k, a, next)
  {
  }

  lemma RoundAtEnd(o: Oracles, max: int, k: nat, ms: Msgs)
    requires Goes(o, k, ms) && !(0 < max <= |System(ms)|)
    ensures var t, next := Round(o, k, ms), Trim(ms + Round(o, k, ms), max);
      EndsWith(next, t)
  {
    NextEndsWithRound(o, max, k, ms);
    TrimmedEnd(ms, Round(o, k, ms), max);
  }

  lemma TrimmedEnd(ms: Msgs, t: Msgs, max: int)
    requires var gs := GroupTurns(Rest(Trim(ms + t, max))); gs != [] && gs[|gs| - 1] == t
    ensures EndsWith(Trim(ms + t, max), t)
  {
    if 0 < max < |ms + t| {
      TrimSplits(ms + t, max);
      LastGroupEnds(System(ms + t), Rest(Trim(ms + t, max)), t);
    } else {
      TrimShort(ms + t, max);
      EndOfSum(ms, t, t);
    }
  }

  predicate EndsWith(ms: Msgs, t: Msgs) {
    |ms| >= |t| && ms[|ms| - |t|..] == t
  }

  lemma LastGroupEnds(system: Msgs, rest: Msgs, t: Msgs)
    requires var gs := GroupTurns(rest); gs != [] && gs[|gs| - 1] == t
    ensures EndsWith(system + rest, t)
  {
    GroupsEnd(rest, t);
    EndOfSum(system, rest, t);
  }

  lemma GroupsEnd(ms: Msgs, t: Msgs)
    requires var gs := GroupTurns(ms); gs != [] && gs[|gs| - 1] == t
    ensures EndsWith(ms, t)
  {
    var gs := GroupTurns(ms);
    FlattenGroups(ms);
    FlattenSplit(gs, |gs| - 1);
    LastGroup(gs);
  }

  lemma EndOfSum(a: Msgs, b: Msgs, t: Msgs)
    requires EndsWith(b, t)
    ensures EndsWith(a + b, t)
  {
  }
}
