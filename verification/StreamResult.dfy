/** The consumers of a chunk stream: stream_result.go, and completeFromSSE of
    providers/openai.go. Timestamps are not modelled. */
module StreamResult {
  import opened Options
  import opened Errors
  import opened Messages
  import opened Stream
  import Sequences

  datatype Result = Result(content: string, reasoning: string, toolCalls: map<int, ToolCall>, finish: string,
                           usage: Usage, created: int, chunkCount: nat, err: Option<Error>)

  const EMPTY := Result("", "", map[], "", NO_USAGE, 0, 0, None)

  /** A missing total is the sum of both sides. */
  function Totalled(u: Usage): Usage {
    if u.total == 0 && (u.input > 0 || u.output > 0) then u.(total := u.input + u.output) else u
  }

  /** A chunk whose usage counts. */
  predicate Reports(c: StreamChunk) {
    c.usage.input > 0 || c.usage.output > 0 || c.usage.total > 0 || c.done
  }

  function Added(r: Result, c: StreamChunk): Result {
    Result(r.content + c.content, r.reasoning + c.reasoning,
           if c.toolCalls != map[] then c.toolCalls else r.toolCalls,
           if c.finish != "" then c.finish else r.finish,
           if Reports(c) then Totalled(c.usage) else r.usage,
           if Reports(c) then c.created else r.created,
           r.chunkCount + 1,
           if c.error.Some? then c.error else r.err)
  }

  /** What a reader has after these chunks, the first error being the last chunk taken. */
  function Collected(r: Result, chunks: Chunks): Result
    decreases chunks
  {
    if chunks == [] then r
    else if chunks[0].error.Some? then Added(r, chunks[0])
    else Collected(Added(r, chunks[0]), chunks[1..])
  }

  class StreamAccumulator {
    var result: Result

    constructor ()
      ensures result == EMPTY
    {
      result := EMPTY;
    }

    /** Add. */
    method Add(chunk: Option<StreamChunk>) returns (err: Option<Error>)
      modifies this
      ensures result == if chunk.Some? then Added(old(result), chunk.value) else old(result)
      ensures err == if chunk.Some? then chunk.value.error else None
    {
      if chunk.None? {
        return None;
      }
      var c := chunk.value;
      result := result.(chunkCount := result.chunkCount + 1);
      result := result.(content := result.content + c.content);
      result := result.(reasoning := result.reasoning + c.reasoning);
      if |c.toolCalls| > 0 {
        result := result.(toolCalls := c.toolCalls);
      }
      if c.finish != "" {
        result := result.(finish := c.finish);
      }
      if c.usage.input > 0 || c.usage.output > 0 || c.usage.total > 0 || c.done {
        var usage := c.usage;
        if usage.total == 0 && (usage.input > 0 || usage.output > 0) {
          usage := usage.(total := usage.input + usage.output);
        }
        result := result.(usage := usage, created := c.created);
      }
      if c.error.Some? {
        result := result.(err := c.error);
      }
      return c.error;
    }
  }

  /** CollectStream. The context may be seen as cancelled once, before chunk cancelAt. */
  method CollectStream(stream: Option<Chunks>, cancelAt: Option<nat>) returns (r: Result, err: Option<Error>)
    ensures err.Some? <==> r.err.Some?
    ensures stream.None? ==> err.Some? && r == EMPTY.(err := err)
    ensures stream.Some? && cancelAt.None? ==> r == Collected(EMPTY, stream.value) && err == r.err
    ensures stream.Some? && cancelAt.Some? && cancelAt.value <= |stream.value| ==>
      var read := Collected(EMPTY, stream.value[..cancelAt.value]);
      if read.err.Some? then r == read && err == r.err else r == read.(err := r.err) && err == Some(Wrapped(Plain("context")))
  {
    var acc := new StreamAccumulator();
    if stream.None? {
      r := acc.result.(err := Some(Plain("stream is nil")));
      return r, r.err;
    }
    var chunks := stream.value;
    for i := 0 to |chunks|
      invariant acc.result == Collected(EMPTY, chunks[..i]) && acc.result.err.None?
      invariant forall k | 0 <= k < i :: chunks[k].error.None?
      invariant cancelAt.Some? ==> i <= cancelAt.value
    {
      if cancelAt == Some(i) {
        r := acc.result.(err := Some(Plain("context")));
        return r, Some(Wrapped(Plain("context")));
      }
      NextCollected(chunks, i, i + 1);
      var e := acc.Add(Some(chunks[i]));
      if e.Some? {
        assert chunks[..|chunks|] == chunks;
        NextCollected(chunks, i, |chunks|);
        if cancelAt.Some? && cancelAt.value <= |chunks| {
          NextCollected(chunks, i, cancelAt.value);
        }
        return acc.result, e;
      }
    }
    assert chunks[..|chunks|] == chunks;
    if cancelAt == Some(|chunks|) {
      r := acc.result.(err := Some(Plain("context")));
      return r, Some(Wrapped(Plain("context")));
    }
    return acc.result, None;
  }

  lemma {:induction false} CollectedAppend(r: Result, a: Chunks, b: Chunks)
    requires forall c | c in a :: c.error.None?
    ensures Collected(r, a + b) == Collected(Collected(r, a), b)
    decreases a
  {
    if a == [] {
      assert a + b == b;
    } else {
      var both := a + b;
      assert both[0] == a[0] && both[1..] == a[1..] + b;
      CollectedAppend(Added(r, a[0]), a[1..], b);
    }
  }

  lemma NextCollected(chunks: Chunks, i: nat, n: nat)
    requires i < n <= |chunks| && forall k | 0 <= k < i :: chunks[k].error.None?
    requires chunks[i].error.Some? || n == i + 1
    ensures Collected(EMPTY, chunks[..n]) == Added(Collected(EMPTY, chunks[..i]), chunks[i])
  {
    var rest := chunks[i..n];
    assert chunks[..n] == chunks[..i] + rest;
    CollectedAppend(EMPTY, chunks[..i], rest);
    var r := Collected(EMPTY, chunks[..i]);
    assert rest[0] == chunks[i];
    assert n == i + 1 ==> rest[1..] == [];
  }

  // ----------------------------------------------------------------- completeFromSSE

  datatype Response = Response(content: string, toolCalls: map<int, ToolCall>, finish: string, usage: Usage, created: int)

  function FirstError(chunks: Chunks): Option<Error> {
    if chunks == [] then None else if chunks[0].error.Some? then chunks[0].error else FirstError(chunks[1..])
  }

  function LastDone(chunks: Chunks): Option<StreamChunk> {
    if chunks == [] then None
    else if chunks[|chunks| - 1].done then Some(chunks[|chunks| - 1])
    else LastDone(chunks[..|chunks| - 1])
  }

  /** The usage of the last final chunk. */
  function LastUsage(chunks: Chunks): Usage {
    match LastDone(chunks)
    case None => NO_USAGE
    case Some(d) => d.usage
  }

  function LastCreated(chunks: Chunks): int {
    match LastDone(chunks)
    case None => 0
    case Some(d) => d.created
  }

  function Whole(chunks: Chunks): Outcome<Response> {
    if FirstError(chunks).Some? then Fail(FirstError(chunks).value)
    else match LastDone(chunks)
      case None => Fail(Plain("no final chunk"))
      case Some(d) => Ok(Response(Contents(chunks), d.toolCalls, d.finish, d.usage, d.created))
  }

  method CompleteFromSSE(es: seq<Event>, broken: bool) returns (r: Outcome<Response>)
    ensures r == Whole(Parse(es, broken))
  {
    var chunks := ParseStream(es, broken);
    var content: string := "";
    var done: Option<StreamChunk> := None;
    for i := 0 to |chunks|
      invariant content == Contents(chunks[..i]) && done == LastDone(chunks[..i])
      invariant FirstError(chunks) == FirstError(chunks[i..])
    {
      var chunk := chunks[i];
      if chunk.error.Some? {
        return Fail(chunk.error.value);
      }
      assert chunks[..i + 1] == chunks[..i] + [chunk] && chunks[i..][1..] == chunks[i + 1..];
      assert chunks[..i + 1][..i] == chunks[..i];
      ContentsAppend(chunks[..i], [chunk]);
      content := content + chunk.content;
      if chunk.done {
        done := Some(chunk);
      }
    }
    assert chunks[..|chunks|] == chunks;
    if done.None? {
      return Fail(Plain("no final chunk"));
    }
    return Ok(Response(content, done.value.toolCalls, done.value.finish, done.value.usage, done.value.created));
  }

  // --------------------------------------------------------- splitting makes no difference

  /** d, in two deltas: the second only adds a fragment, or names the call again. */
  predicate Glued(d: Delta, a: Delta, b: Delta) {
    && a.index == d.index && b.index == d.index && a.id == d.id && a.typ == d.typ
    && d.name == (if b.name != "" then b.name else a.name)
    && d.arguments == a.arguments + b.arguments
  }

  /** ds, in two parts: cut between deltas or inside one. */
  predicate Cut(ds: seq<Delta>, a: seq<Delta>, b: seq<Delta>) {
    || ds == a + b
    || (a != [] && b != [] && |ds| == |a| + |b| - 1
        && var n := |a| - 1; ds[..n] == a[..n] && ds[n + 1..] == b[1..] && Glued(ds[n], a[n], b[0]))
  }

  /** e, in two events: the text and the deltas are cut anywhere; the finish reason and
      the usage come with the second. */
  predicate Splits(e: Event, e1: Event, e2: Event) {
    && e.Data? && e1.Data? && e2.Data? && e.choices != [] && e1.choices != [] && e2.choices != []
    && e2.usage == e.usage
    && var c, c1, c2 := e.choices[0], e1.choices[0], e2.choices[0];
      && c1.finish == "" && c2.finish == c.finish
      && Text(c) == Text(c1) + Text(c2)
      && Cut(c.toolCalls, c1.toolCalls, c2.toolCalls)
  }

  lemma CutFeeds(accs: Accs, ds: seq<Delta>, a: seq<Delta>, b: seq<Delta>)
    requires Cut(ds, a, b)
    ensures FeedAll(FeedAll(accs, a), b) == FeedAll(accs, ds)
  {
    if ds == a + b {
      FeedAppend(accs, a, b);
    } else {
      CutInside(accs, ds, a, b);
    }
  }

  lemma {:induction false} CutInside(accs: Accs, ds: seq<Delta>, a: seq<Delta>, b: seq<Delta>)
    requires a != [] && b != [] && |ds| == |a| + |b| - 1
    requires var n := |a| - 1; ds[..n] == a[..n] && ds[n + 1..] == b[1..] && Glued(ds[n], a[n], b[0])
    ensures FeedAll(FeedAll(accs, a), b) == FeedAll(accs, ds)
  {
    var n, m := |a| - 1, |b| - 1;
    if m == 0 {
      assert ds[..|ds| - 1] == a[..n] && b[..0] == [];
      FeedGlued(FeedAll(accs, a[..n]), ds[n], a[n], b[0]);
    } else {
      var init := ds[..|ds| - 1];
      assert ds[|ds| - 1] == ds[n + 1..][m - 1] == b[m];
      assert init[n + 1..] == ds[n + 1..][..m - 1] == b[..m][1..];
      CutInside(accs, init, a, b[..m]);
    }
  }

  lemma FeedGlued(accs: Accs, d: Delta, a: Delta, b: Delta)
    requires Glued(d, a, b)
    ensures Feed(Feed(accs, a), b) == Feed(accs, d)
  {
    var before := if d.index in accs then accs[d.index].arguments else "";
    assert before + d.arguments == before + a.arguments + b.arguments;
  }

  predicate SameButCount(r: Result, q: Result) {
    r.(chunkCount := 0) == q.(chunkCount := 0)
  }

  lemma {:induction false} CollectedSame(r: Result, q: Result, chunks: Chunks)
    requires SameButCount(r, q)
    ensures SameButCount(Collected(r, chunks), Collected(q, chunks))
    decreases chunks
  {
    if chunks != [] {
      var r', q' := Added(r, chunks[0]), Added(q, chunks[0]);
      assert SameButCount(r', q');
      CollectedSame(r', q', chunks[1..]);
    }
  }

  /** What comes before cannot tell two continuations apart. */
  lemma {:induction false} PrefixSame(r: Result, before: Chunks, a: Chunks, b: Chunks)
    requires forall q :: SameButCount(Collected(q, a), Collected(q, b))
    ensures SameButCount(Collected(r, before + a), Collected(r, before + b))
    decreases before
  {
    if before == [] {
      assert before + a == a && before + b == b;
    } else {
      var xa, xb := before + a, before + b;
      assert xa[0] == before[0] && xa[1..] == before[1..] + a;
      assert xb[0] == before[0] && xb[1..] == before[1..] + b;
      PrefixSame(Added(r, before[0]), before[1..], a, b);
    }
  }

  lemma TextCollected(r: Result, text: string, rest: Chunks)
    ensures SameButCount(Collected(r, TextChunk(text) + rest), Collected(r.(content := r.content + text), rest))
  {
    var added := r.(content := r.content + text);
    if text == "" {
      assert TextChunk(text) + rest == rest && added == r;
    } else {
      var all := TextChunk(text) + rest;
      assert all[0] == TextChunk(text)[0] && all[1..] == rest;
      assert r.reasoning + "" == r.reasoning;
      CollectedSame(Added(r, all[0]), added, rest);
    }
  }

  lemma TextsSame(r: Result, a: string, b: string, rest: Chunks)
    ensures SameButCount(Collected(r, TextChunk(a + b) + rest), Collected(r, TextChunk(a) + (TextChunk(b) + rest)))
  {
    TextCollected(r, a + b, rest);
    TextCollected(r, a, TextChunk(b) + rest);
    TextCollected(r.(content := r.content + a), b, rest);
    assert r.content + (a + b) == r.content + a + b;
  }

  lemma SplitStep(s: State, e: Event, e1: Event, e2: Event)
    requires Splits(e, e1, e2) && !s.ended
    ensures After(After(s, e1), e2) == After(s, e)
    ensures Emits(s, e) == TextChunk(TextOf(e)) + Fin(s, e)
    ensures Emits(s, e1) == TextChunk(TextOf(e1))
    ensures Emits(After(s, e1), e2) == TextChunk(TextOf(e2)) + Fin(s, e)
  {
    var c, c1, c2 := e.choices[0], e1.choices[0], e2.choices[0];
    CutFeeds(s.accs, c.toolCalls, c1.toolCalls, c2.toolCalls);
  }

  /** What an event with a choice sends after its text. */
  function Fin(s: State, e: Event): Chunks
    requires e.Data? && e.choices != []
  {
    var c := e.choices[0];
    if c.finish != "" && e.usage.Some? then [FinalChunk(FeedAll(s.accs, c.toolCalls), c.finish, e.usage.value)] else []
  }

  lemma RunParts(s: State, a: seq<Event>, b: seq<Event>, broken: bool)
    ensures FinishFrom(s, a + b, broken) == EmitsAll(s, a) + FinishFrom(AfterAll(s, a), b, broken)
  {
    Steps(s, a, b);
    var t := AfterAll(s, a);
    Sequences.Assoc(EmitsAll(s, a), EmitsAll(t, b), Closing(AfterAll(t, b), broken));
  }

  lemma SplitFrom(r: Result, s: State, e: Event, e1: Event, e2: Event, after: seq<Event>, broken: bool)
    requires Splits(e, e1, e2)
    ensures SameButCount(Collected(r, FinishFrom(s, [e] + after, broken)), Collected(r, FinishFrom(s, [e1, e2] + after, broken)))
  {
    var one, two := [e] + after, [e1, e2] + after;
    if s.ended {
      NothingAfterEnd(s, one);
      NothingAfterEnd(s, two);
    } else {
      SplitStep(s, e, e1, e2);
      var fin, rest := Fin(s, e), FinishFrom(After(s, e), after, broken);
      RunOne(s, e, after, broken);
      assert two == [e1] + ([e2] + after);
      RunOne(s, e1, [e2] + after, broken);
      RunOne(After(s, e1), e2, after, broken);
      Sequences.Assoc(TextChunk(TextOf(e)), fin, rest);
      Sequences.Assoc(TextChunk(TextOf(e2)), fin, rest);
      TextsSame(r, TextOf(e1), TextOf(e2), fin + rest);
    }
  }

  lemma RunOne(s: State, e: Event, after: seq<Event>, broken: bool)
    ensures FinishFrom(s, [e] + after, broken) == Emits(s, e) + FinishFrom(After(s, e), after, broken)
  {
    var next := After(s, e);
    Sequences.Cons(e, after);
    Sequences.Assoc(Emits(s, e), EmitsAll(next, after), Closing(AfterAll(next, after), broken));
  }

  /** Cutting one event in two, anywhere in its text or in its fragments, changes nothing
      that CollectStream returns but the number of chunks. */
  lemma SplitInvisible(before: seq<Event>, e: Event, e1: Event, e2: Event, after: seq<Event>, broken: bool)
    requires Splits(e, e1, e2)
    ensures SameButCount(Collected(EMPTY, Parse(before + ([e] + after), broken)),
                         Collected(EMPTY, Parse(before + ([e1, e2] + after), broken)))
  {
    var s := AfterAll(START, before);
    RunParts(START, before, [e] + after, broken);
    RunParts(START, before, [e1, e2] + after, broken);
    forall q ensures SameButCount(Collected(q, FinishFrom(s, [e] + after, broken)),
                                  Collected(q, FinishFrom(s, [e1, e2] + after, broken))) {
      SplitFrom(q, s, e, e1, e2, after, broken);
    }
    PrefixSame(EMPTY, EmitsAll(START, before), FinishFrom(s, [e] + after, broken), FinishFrom(s, [e1, e2] + after, broken));
  }

  // -------------------------------------------------- what is left when the stream ends

  /** A text chunk, or a final chunk that drops no tool call had before. */
  predicate Clean(had: bool, c: StreamChunk) {
    && c.error.None? && c.reasoning == ""
    && if c.done then c.content == "" && c.finish != "" && (had ==> c.toolCalls != map[])
       else c.finish == "" && c.toolCalls == map[] && c.usage == NO_USAGE
  }

  function Had(had: bool, c: StreamChunk): bool {
    had || c.toolCalls != map[]
  }

  /** Clean chunks, and perhaps an error at the very end. */
  predicate Orderly(had: bool, chunks: Chunks)
    decreases chunks
  {
    chunks == [] || (if chunks[0].error.Some? then chunks == [ErrorChunk("parse chunk")] || chunks == [ErrorChunk("stream read")]
                     else Clean(had, chunks[0]) && Orderly(Had(had, chunks[0]), chunks[1..]))
  }

  /** The tool calls the reader had are all still in the accumulators. */
  predicate Ready(had: bool, s: State) {
    && (had ==> s.accs != map[])
    && (s.pending.Some? ==>
          s.pending.value.done && Clean(had, s.pending.value) && (s.pending.value.toolCalls != map[] ==> s.accs != map[]))
  }

  lemma {:induction false} FeedGrows(accs: Accs, ds: seq<Delta>)
    requires accs != map[]
    ensures FeedAll(accs, ds) != map[]
  {
    if ds != [] {
      assert ds[|ds| - 1].index in FeedAll(accs, ds);
    }
  }

  lemma ToolsOfSome(accs: Accs)
    ensures Tools(accs) == map[] <==> accs == map[]
  {
    assert Tools(accs).Keys == accs.Keys;
    assert accs.Keys == {} <==> |accs| == 0;
    assert Tools(accs).Keys == {} <==> |Tools(accs)| == 0;
  }

  lemma OrderlyClosing(had: bool, s: State, broken: bool)
    requires Ready(had, s)
    ensures Orderly(had, Closing(s, broken)) && Orderly(had, Held(s.pending))
  {
    if s.pending.Some? {
      assert Held(s.pending)[1..] == [];
      var both := Held(s.pending) + if broken then [ErrorChunk("stream read")] else [];
      assert both[0] == s.pending.value && both[1..] == if broken then [ErrorChunk("stream read")] else [];
    } else {
      assert Held(s.pending) == [];
    }
  }

  lemma OrderlyText(had: bool, text: string, rest: Chunks)
    requires Orderly(had, rest)
    ensures Orderly(had, TextChunk(text) + rest)
  {
    var all := TextChunk(text) + rest;
    if text == "" {
      assert all == rest;
    } else {
      assert all[0] == TextChunk(text)[0] && all[1..] == rest;
    }
  }

  lemma OrderlyFinal(had: bool, c: StreamChunk, rest: Chunks)
    requires Clean(had, c) && Orderly(Had(had, c), rest)
    ensures Orderly(had, [c] + rest)
  {
    assert ([c] + rest)[1..] == rest;
  }

  /** The history of one event: what it sends is clean and leaves the reader ready. */
  lemma OrderlyStep(had: bool, s: State, e: Event) returns (had': bool)
    requires Ready(had, s) && !s.ended && !e.DoneMark? && !e.Malformed?
    ensures Ready(had', After(s, e)) && !After(s, e).ended
    ensures forall rest | Orderly(had', rest) :: Orderly(had, Emits(s, e) + rest)
  {
    had' := had;
    if e.Data? && e.choices == [] && e.usage.Some? && s.pending.Some? {
      var c := s.pending.value.(usage := e.usage.value);
      had' := Had(had, c);
      forall rest | Orderly(had', rest) ensures Orderly(had, Emits(s, e) + rest) {
        OrderlyFinal(had, c, rest);
      }
    } else if e.Data? && e.choices != [] {
      var c := e.choices[0];
      var accs := FeedAll(s.accs, c.toolCalls);
      var final := FinalChunk(accs, c.finish, NO_USAGE);
      if s.accs != map[] {
        FeedGrows(s.accs, c.toolCalls);
      }
      ToolsOfSome(accs);
      if c.finish != "" && e.usage.Some? {
        had' := Had(had, final);
      }
      forall rest | Orderly(had', rest) ensures Orderly(had, Emits(s, e) + rest) {
        OrderlyEvent(had, s, e, rest);
      }
    } else {
      forall rest ensures Emits(s, e) + rest == rest {
      }
    }
  }

  lemma OrderlyEvent(had: bool, s: State, e: Event, rest: Chunks)
    requires e.Data? && e.choices != [] && !s.ended
    requires had ==> FeedAll(s.accs, e.choices[0].toolCalls) != map[]
    requires var c := e.choices[0];
      Orderly(if c.finish != "" && e.usage.Some? then Had(had, FinalChunk(FeedAll(s.accs, c.toolCalls), c.finish, NO_USAGE)) else had, rest)
    ensures Orderly(had, Emits(s, e) + rest)
  {
    var c := e.choices[0];
    var accs := FeedAll(s.accs, c.toolCalls);
    ToolsOfSome(accs);
    if c.finish != "" && e.usage.Some? {
      var final := FinalChunk(accs, c.finish, e.usage.value);
      OrderlyFinal(had, final, rest);
      OrderlyText(had, Text(c), [final] + rest);
      Sequences.Assoc(TextChunk(Text(c)), [final], rest);
    } else {
      OrderlyText(had, Text(c), rest);
      assert Emits(s, e) == TextChunk(Text(c));
    }
  }

  lemma {:induction false} OrderlyFrom(had: bool, s: State, es: seq<Event>, broken: bool)
    requires Ready(had, s) && !s.ended
    ensures Orderly(had, FinishFrom(s, es, broken))
    decreases es
  {
    if es == [] {
      OrderlyClosing(had, s, broken);
      assert FinishFrom(s, es, broken) == Closing(s, broken);
    } else {
      var e, next := es[0], After(s, es[0]);
      assert [e] + es[1..] == es;
      RunOne(s, e, es[1..], broken);
      if next.ended {
        NothingAfterEnd(next, es[1..]);
        OrderlyClosing(had, s, broken);
        assert FinishFrom(next, es[1..], broken) == [];
      } else {
        var had' := OrderlyStep(had, s, e);
        OrderlyFrom(had', next, es[1..], broken);
      }
    }
  }

  /** c is r with these chunks: all their text; after an error no usage; otherwise what the
      last final chunk says. */
  predicate Sums(r: Result, chunks: Chunks, c: Result) {
    && c.content == r.content + Contents(chunks)
    && c.err == FirstError(chunks)
    && (c.err.Some? ==> c.usage == NO_USAGE && LastDone(chunks).Some? && LastUsage(chunks) == NO_USAGE)
    && (c.err.Some? ==> c.created == 0 == LastCreated(chunks))
    && (c.err.None? ==> match LastDone(chunks)
                        case None => c == r.(content := c.content, chunkCount := c.chunkCount)
                        case Some(d) => c.finish == d.finish != "" && c.toolCalls == d.toolCalls && c.usage == Totalled(d.usage) && c.created == d.created)
  }

  lemma SumsCons(r: Result, chunks: Chunks, c: Result)
    requires chunks != [] && Clean(r.toolCalls != map[], chunks[0])
    requires Sums(Added(r, chunks[0]), chunks[1..], c)
    ensures Sums(r, chunks, c)
  {
    LastDoneCons(chunks);
    assert (r.content + chunks[0].content) + Contents(chunks[1..]) == r.content + Contents(chunks);
  }

  lemma SumsError(r: Result, text: string)
    requires r.err.None?
    ensures Sums(r, [ErrorChunk(text)], Added(r, ErrorChunk(text)))
  {
    assert [ErrorChunk(text)][1..] == [];
  }

  lemma {:induction false} CollectedOrderly(r: Result, chunks: Chunks)
    requires r.err.None? && Orderly(r.toolCalls != map[], chunks)
    ensures Sums(r, chunks, Collected(r, chunks))
    decreases chunks
  {
    if chunks == [] {
    } else if chunks[0].error.Some? {
      SumsError(r, if chunks == [ErrorChunk("parse chunk")] then "parse chunk" else "stream read");
    } else {
      CollectedOrderly(Added(r, chunks[0]), chunks[1..]);
      SumsCons(r, chunks, Collected(r, chunks));
    }
  }

  lemma {:induction false} LastDoneCons(chunks: Chunks)
    requires chunks != []
    ensures LastDone(chunks) ==
      if LastDone(chunks[1..]).Some? then LastDone(chunks[1..])
      else if chunks[0].done then Some(chunks[0]) else None
  {
    if |chunks| > 1 {
      var init := chunks[..|chunks| - 1];
      LastDoneCons(init);
      assert init[1..] == chunks[1..][..|chunks| - 2];
    } else {
      assert chunks[1..] == [] && chunks[..0] == [];
    }
  }

  /** The streamed and the whole reading of a body agree: the same error, or the same
      text, tool calls, finish reason and (total filled in) usage. */
  lemma StreamedAndWholeAgree(es: seq<Event>, broken: bool)
    ensures var r, w := Collected(EMPTY, Parse(es, broken)), Whole(Parse(es, broken));
      && (r.err.Some? ==> w == Fail(r.err.value))
      && (r.err.None? ==> (w.Ok? <==> r.finish != ""))
      && (w.Ok? ==> w.value.(usage := Totalled(w.value.usage)) == Response(r.content, r.toolCalls, r.finish, r.usage, r.created))
  {
    OrderlyFrom(false, START, es, broken);
    CollectedOrderly(EMPTY, Parse(es, broken));
  }

  /** The stream ends in an error: data that is no JSON comes before the end mark, or the
      connection breaks without either. */
  predicate Errs(es: seq<Event>, broken: bool) {
    var n := |Live(es)|;
    if n < |es| then es[n].Malformed? else broken
  }

  lemma {:induction false} NoErrorYet(s: State, es: seq<Event>)
    requires !s.ended && AllRead(es) && (s.pending.Some? ==> s.pending.value.error.None?)
    ensures FirstError(EmitsAll(s, es)).None?
    ensures var p := AfterAll(s, es).pending; p.Some? ==> p.value.error.None?
    decreases es
  {
    if es != [] {
      var e, next := es[0], After(s, es[0]);
      assert e in es;
      EmitsNoError(s, e);
      NoErrorYet(next, es[1..]);
      FirstErrorAppend(Emits(s, e), EmitsAll(next, es[1..]));
    }
  }

  lemma EmitsNoError(s: State, e: Event)
    requires !s.ended && !e.DoneMark? && !e.Malformed? && (s.pending.Some? ==> s.pending.value.error.None?)
    ensures FirstError(Emits(s, e)).None? && !After(s, e).ended
    ensures After(s, e).pending.Some? ==> After(s, e).pending.value.error.None?
  {
    if e.Data? && e.choices != [] {
      FirstErrorAppend(TextChunk(Text(e.choices[0])), Fin(s, e));
    }
  }

  lemma {:induction false} FirstErrorAppend(a: Chunks, b: Chunks)
    ensures FirstError(a + b) == if FirstError(a).Some? then FirstError(a) else FirstError(b)
  {
    if a == [] {
      assert a + b == b;
    } else {
      var both := a + b;
      assert both[0] == a[0] && both[1..] == a[1..] + b;
      FirstErrorAppend(a[1..], b);
    }
  }

  /** An error is sent exactly when the events say so. */
  lemma ErrsExactly(es: seq<Event>, broken: bool)
    ensures FirstError(Parse(es, broken)).Some? <==> Errs(es, broken)
  {
    var pending := AfterAll(START, Live(es)).pending;
    LivePrefix(es);
    ParseEnds(es, broken);
    NoErrorYet(START, Live(es));
    FirstErrorAppend(EmitsAll(START, Live(es)), Ending(es, broken, pending));
    FirstErrorAppend(Held(pending), if broken then [ErrorChunk("stream read")] else []);
  }

  /** What CollectStream returns for a parsed stream: the text of every event read, and an
      error exactly when the events say so. */
  lemma PartialResult(es: seq<Event>, broken: bool)
    ensures var r := Collected(EMPTY, Parse(es, broken));
      r.content == Texts(Live(es)) && (r.err.Some? <==> Errs(es, broken))
  {
    OrderlyFrom(false, START, es, broken);
    CollectedOrderly(EMPTY, Parse(es, broken));
    ContentConserved(es, broken);
    ErrsExactly(es, broken);
  }

  /** The usage last reported by a final chunk. */
  function Reported(chunks: Chunks): Usage {
    var fs := Finals(chunks);
    if fs == [] then NO_USAGE else fs[|fs| - 1].usage
  }

  lemma {:induction false} ReportedLast(chunks: Chunks)
    requires FirstError(chunks).None?
    ensures LastDone(chunks).Some? <==> Finals(chunks) != []
    ensures Reported(chunks) == LastUsage(chunks)
  {
    if chunks != [] {
      ReportedLast(chunks[1..]);
      LastDoneCons(chunks);
    }
  }

  /** The usage reported before the stream ended is what is returned, if and only if the
      stream does not end in an error or nothing was reported. */
  lemma UsageKeptExactly(es: seq<Event>, broken: bool)
    ensures Collected(EMPTY, Parse(es, broken)).usage == Totalled(Reported(Parse(es, broken)))
      <==> !Errs(es, broken) || Reported(Parse(es, broken)) == NO_USAGE
  {
    var chunks := Parse(es, broken);
    OrderlyFrom(false, START, es, broken);
    CollectedOrderly(EMPTY, chunks);
    ErrsExactly(es, broken);
    if !Errs(es, broken) {
      ReportedLast(chunks);
    }
  }

  /** Such a stream exists, for any usage: one that reports it and then breaks. */
  lemma UsageLost(u: Usage)
    requires u != NO_USAGE
    ensures var es := [Data([Choice("", "", "", [], "stop")], Some(u))];
      Errs(es, true) && Reported(Parse(es, true)) == u && Collected(EMPTY, Parse(es, true)).usage == NO_USAGE
  {
    var e := Data([Choice("", "", "", [], "stop")], Some(u));
    var es := [e];
    var final, error := FinalChunk(map[], "stop", u), ErrorChunk("stream read");
    assert es[1..] == [] && Emits(START, e) == [final] && After(START, e) == START;
    RunOne(START, e, [], true);
    assert [e] + [] == es;
    assert FinishFrom(START, [], true) == [error];
    FinalsAppend([final], [error]);
    assert [final][1..] == [] && [error][1..] == [];
    assert Finals([final]) == [final] && Finals([error]) == [];
    OrderlyFrom(false, START, es, true);
    CollectedOrderly(EMPTY, Parse(es, true));
    assert Live(es) == es;
    ErrsExactly(es, true);
  }

  /** The usage returned, part by part: that of the last final chunk, with the sum for a
      total that is missing. */
  lemma UsageReturned(es: seq<Event>, broken: bool)
    requires !Errs(es, broken)
    ensures var u, last := Collected(EMPTY, Parse(es, broken)).usage, LastUsage(Parse(es, broken));
      && u.input == last.input && u.output == last.output && u.reasoning == last.reasoning && u.cached == last.cached
      && (last.total != 0 ==> u.total == last.total)
      && (last.total == 0 && (last.input > 0 || last.output > 0) ==> u.total == last.input + last.output)
      && (last.total == 0 && last.input <= 0 && last.output <= 0 ==> u.total == 0)
  {
    OrderlyFrom(false, START, es, broken);
    CollectedOrderly(EMPTY, Parse(es, broken));
    ErrsExactly(es, broken);
  }

  function Reasonings(chunks: Chunks): string {
    if chunks == [] then "" else chunks[0].reasoning + Reasonings(chunks[1..])
  }

  /** Whatever chunks come, without an error all texts are put together in order and every
      chunk is counted. */
  lemma {:induction false} CollectsAll(r: Result, chunks: Chunks)
    requires forall k | 0 <= k < |chunks| :: chunks[k].error.None?
    ensures var c := Collected(r, chunks);
      && c.content == r.content + Contents(chunks) && c.reasoning == r.reasoning + Reasonings(chunks)
      && c.chunkCount == r.chunkCount + |chunks| && c.err == r.err
    decreases chunks
  {
    if chunks != [] {
      var next := Added(r, chunks[0]);
      assert forall k | 0 <= k < |chunks[1..]| :: chunks[1..][k] == chunks[k + 1];
      CollectsAll(next, chunks[1..]);
      Sequences.Assoc(r.content, chunks[0].content, Contents(chunks[1..]));
      Sequences.Assoc(r.reasoning, chunks[0].reasoning, Reasonings(chunks[1..]));
    }
  }

  /** A chunk with tool calls or a finish reason replaces what was known of them; one
      without leaves it. */
  lemma LatestKept(r: Result, c: StreamChunk)
    ensures var n := Added(r, c);
      && (c.toolCalls != map[] ==> n.toolCalls == c.toolCalls) && (c.toolCalls == map[] ==> n.toolCalls == r.toolCalls)
      && (c.finish != "" ==> n.finish == c.finish) && (c.finish == "" ==> n.finish == r.finish)
      && (!c.done && c.usage == NO_USAGE ==> n.usage == r.usage && n.created == r.created)
      && (c.error.Some? ==> n.err == c.error)
  {
  }
}
