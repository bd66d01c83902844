/** parseSSEStream and completeFromSSE of providers/openai.go, on decoded events. The order
    in which a final chunk lists its tool calls is arbitrary, so they are a map by index. */
module Stream {
  import opened Options
  import opened Errors
  import opened Messages
  import Sequences

  datatype Usage = Usage(input: int, output: int, total: int, reasoning: int, cached: int)

  const NO_USAGE := Usage(0, 0, 0, 0, 0)

  /** One tool-call delta; only the first of an index need carry id and type. */
  datatype Delta = Delta(index: int, id: string, typ: string, name: string, arguments: string)

  datatype Choice = Choice(content: string, reasoningContent: string, reasoning: string, toolCalls: seq<Delta>, finish: string)

  /** A line of the stream: no data, the end mark, data that is no JSON, or a chunk. */
  datatype Event = Ignored | DoneMark | Malformed | Data(choices: seq<Choice>, usage: Option<Usage>)

  datatype StreamChunk = StreamChunk(content: string, reasoning: string, toolCalls: map<int, ToolCall>, done: bool,
                                     finish: string, usage: Usage, created: int, error: Option<Error>)

  type Chunks = seq<StreamChunk>

  /** What one index has accumulated. */
  datatype Acc = Acc(id: string, typ: string, name: string, arguments: string)

  type Accs = map<int, Acc>

  // ------------------------------------------------------------- one event at a time

  function Text(c: Choice): string {
    if c.content != "" then c.content else if c.reasoningContent != "" then c.reasoningContent else c.reasoning
  }

  function Feed(accs: Accs, d: Delta): Accs {
    var acc := if d.index in accs then accs[d.index] else Acc(d.id, d.typ, "", "");
    accs[d.index := acc.(name := if d.name != "" then d.name else acc.name, arguments := acc.arguments + d.arguments)]
  }

  function FeedAll(accs: Accs, ds: seq<Delta>): Accs {
    if ds == [] then accs else Feed(FeedAll(accs, ds[..|ds| - 1]), ds[|ds| - 1])
  }

  function Tools(accs: Accs): map<int, ToolCall> {
    map i | i in accs :: ToolCall(i, accs[i].id, accs[i].typ, accs[i].name, accs[i].arguments)
  }

  function TextChunk(text: string): Chunks {
    if text == "" then [] else [StreamChunk(text, "", map[], false, "", NO_USAGE, 0, None)]
  }

  function FinalChunk(accs: Accs, finish: string, usage: Usage): StreamChunk {
    StreamChunk("", "", Tools(accs), true, finish, usage, 0, None)
  }

  function ErrorChunk(text: string): StreamChunk {
    StreamChunk("", "", map[], true, "", NO_USAGE, 0, Some(Plain(text)))
  }

  datatype State = State(accs: Accs, pending: Option<StreamChunk>, ended: bool)

  const START := State(map[], None, false)

  function After(s: State, e: Event): State {
    if s.ended then s
    else match e
      case Ignored => s
      case DoneMark => s.(ended := true)
      case Malformed => s.(ended := true)
      case Data(choices, usage) =>
        if choices == [] then if usage.Some? then s.(pending := None) else s
        else
          var c := choices[0];
          var accs := FeedAll(s.accs, c.toolCalls);
          if c.finish == "" then s.(accs := accs)
          else State(accs, if usage.Some? then None else Some(FinalChunk(accs, c.finish, NO_USAGE)), false)
  }

  function Held(pending: Option<StreamChunk>): Chunks {
    if pending.Some? then [pending.value] else []
  }

  function Emits(s: State, e: Event): Chunks {
    if s.ended then []
    else match e
      case Ignored => []
      case DoneMark => Held(s.pending)
      case Malformed => [ErrorChunk("parse chunk")]
      case Data(choices, usage) =>
        if choices == [] then
          if usage.Some? && s.pending.Some? then [s.pending.value.(usage := usage.value)] else []
        else
          var c := choices[0];
          TextChunk(Text(c)) +
          if c.finish != "" && usage.Some? then [FinalChunk(FeedAll(s.accs, c.toolCalls), c.finish, usage.value)] else []
  }

  function AfterAll(s: State, es: seq<Event>): State
    decreases es
  {
    if es == [] then s else AfterAll(After(s, es[0]), es[1..])
  }

  function EmitsAll(s: State, es: seq<Event>): Chunks
    decreases es
  {
    if es == [] then [] else Emits(s, es[0]) + EmitsAll(After(s, es[0]), es[1..])
  }

  /** What follows when the events run out, cleanly or with a read error. */
  function Closing(s: State, broken: bool): Chunks {
    if s.ended then [] else Held(s.pending) + if broken then [ErrorChunk("stream read")] else []
  }

  function FinishFrom(s: State, es: seq<Event>, broken: bool): Chunks {
    EmitsAll(s, es) + Closing(AfterAll(s, es), broken)
  }

  function Parse(es: seq<Event>, broken: bool): Chunks {
    FinishFrom(START, es, broken)
  }

  lemma {:induction false} Steps(s: State, a: seq<Event>, b: seq<Event>)
    ensures AfterAll(s, a + b) == AfterAll(AfterAll(s, a), b)
    ensures EmitsAll(s, a + b) == EmitsAll(s, a) + EmitsAll(AfterAll(s, a), b)
    decreases a
  {
    if a == [] {
      assert a + b == b;
    } else {
      var both, next := a + b, After(s, a[0]);
      assert both[0] == a[0] && both[1..] == a[1..] + b;
      Steps(next, a[1..], b);
      calc {
        EmitsAll(s, both);
        Emits(s, a[0]) + EmitsAll(next, a[1..] + b);
        Emits(s, a[0]) + (EmitsAll(next, a[1..]) + EmitsAll(AfterAll(next, a[1..]), b));
        EmitsAll(s, a) + EmitsAll(AfterAll(s, a), b);
      }
    }
  }

  lemma {:induction false} NothingAfterEnd(s: State, es: seq<Event>)
    requires s.ended
    ensures AfterAll(s, es) == s && EmitsAll(s, es) == []
  {
    if es != [] {
      NothingAfterEnd(s, es[1..]);
    }
  }

  method Accumulate(before: Accs, ds: seq<Delta>) returns (accs: Accs)
    ensures accs == FeedAll(before, ds)
  {
    accs := before;
    for i := 0 to |ds|
      invariant accs == FeedAll(before, ds[..i])
    {
      var tc := ds[i];
      assert ds[..i + 1][..i] == ds[..i];
      if tc.index !in accs {
        accs := accs[tc.index := Acc(tc.id, tc.typ, "", "")];
      }
      if tc.name != "" {
        accs := accs[tc.index := accs[tc.index].(name := tc.name)];
      }
      accs := accs[tc.index := accs[tc.index].(arguments := accs[tc.index].arguments + tc.arguments)];
    }
    assert ds[..|ds|] == ds;
  }

  /** parseSSEStream, as the sequence of chunks it sends. */
  method ParseStream(es: seq<Event>, broken: bool) returns (out: Chunks)
    ensures out == Parse(es, broken)
  {
    var accs: Accs := map[];
    var pending: Option<StreamChunk> := None;
    out := [];
    for i := 0 to |es|
      invariant AfterAll(START, es[..i]) == State(accs, pending, false)
      invariant EmitsAll(START, es[..i]) == out
    {
      ghost var s := State(accs, pending, false);
      Extend(es, i, s, out);
      match es[i] {
        case Ignored =>
        case DoneMark =>
          if pending.Some? {
            out := out + [pending.value];
          }
          Ended(es, i + 1, broken);
          return;
        case Malformed =>
          out := out + [ErrorChunk("parse chunk")];
          Ended(es, i + 1, broken);
          return;
        case Data(choices, usage) =>
          accs, pending, out := Receive(accs, pending, out, choices, usage);
      }
    }
    assert es[..|es|] == es;
    if pending.Some? {
      out := out + [pending.value];
    }
    if broken {
      out := out + [ErrorChunk("stream read")];
    }
  }

  lemma Extend(es: seq<Event>, i: nat, s: State, out: Chunks)
    requires i < |es| && AfterAll(START, es[..i]) == s && EmitsAll(START, es[..i]) == out
    ensures AfterAll(START, es[..i + 1]) == After(s, es[i])
    ensures EmitsAll(START, es[..i + 1]) == out + Emits(s, es[i])
  {
    Steps(START, es[..i], [es[i]]);
    assert es[..i + 1] == es[..i] + [es[i]];
    assert [es[i]][1..] == [];
    assert EmitsAll(After(s, es[i]), []) == [];
  }

  lemma Ended(es: seq<Event>, n: nat, broken: bool)
    requires n <= |es| && AfterAll(START, es[..n]).ended
    ensures Parse(es, broken) == EmitsAll(START, es[..n])
  {
    Steps(START, es[..n], es[n..]);
    assert es == es[..n] + es[n..];
    NothingAfterEnd(AfterAll(START, es[..n]), es[n..]);
  }

  /** The body of the loop for a decoded chunk. */
  method Receive(accs: Accs, pending: Option<StreamChunk>, out: Chunks, choices: seq<Choice>, usage: Option<Usage>)
      returns (accs': Accs, pending': Option<StreamChunk>, out': Chunks)
    ensures After(State(accs, pending, false), Data(choices, usage)) == State(accs', pending', false)
    ensures out' == out + Emits(State(accs, pending, false), Data(choices, usage))
  {
    accs', pending', out' := accs, pending, out;
    if |choices| == 0 && usage.Some? && pending.Some? {
      out' := out' + [pending.value.(usage := usage.value)];
      pending' := None;
      return;
    }
    if |choices| == 0 {
      return;
    }
    var choice := choices[0];
    accs' := Accumulate(accs, choice.toolCalls);
    var text := choice.content;
    if text == "" {
      text := choice.reasoningContent;
    }
    if text == "" {
      text := choice.reasoning;
    }
    if text != "" {
      out' := out' + [StreamChunk(text, "", map[], false, "", NO_USAGE, 0, None)];
    }
    if choice.finish != "" {
      var final := FinalChunk(accs', choice.finish, NO_USAGE);
      pending' := Some(final);
      if usage.Some? {
        out' := out' + [final.(usage := usage.value)];
        pending' := None;
      }
    }
  }

  // ------------------------------------------------------------ against the event list

  /** The events that are read: those before the first end mark or malformed one. */
  function Live(es: seq<Event>): seq<Event> {
    if es == [] || es[0].DoneMark? || es[0].Malformed? then [] else [es[0]] + Live(es[1..])
  }

  function TextOf(e: Event): string {
    if e.Data? && e.choices != [] then Text(e.choices[0]) else ""
  }

  function Texts(es: seq<Event>): string {
    if es == [] then "" else TextOf(es[0]) + Texts(es[1..])
  }

  function Contents(chunks: Chunks): string {
    if chunks == [] then "" else chunks[0].content + Contents(chunks[1..])
  }

  lemma {:induction false} ContentsAppend(a: Chunks, b: Chunks)
    ensures Contents(a + b) == Contents(a) + Contents(b)
  {
    if a == [] {
      assert a + b == b;
    } else {
      var both := a + b;
      assert both[0] == a[0] && both[1..] == a[1..] + b;
      calc {
        Contents(both);
        a[0].content + Contents(a[1..] + b);
        { ContentsAppend(a[1..], b); }
        a[0].content + (Contents(a[1..]) + Contents(b));
        Contents(a) + Contents(b);
      }
    }
  }

  predicate Textless(s: State) {
    s.pending.Some? ==> s.pending.value.content == ""
  }

  lemma EmittedText(s: State, e: Event)
    requires Textless(s) && !s.ended
    ensures Contents(Emits(s, e)) == if e.Data? then TextOf(e) else ""
  {
    if e.Data? && e.choices != [] {
      var c := e.choices[0];
      var text := TextChunk(Text(c));
      assert Contents(text) == Text(c);
      if c.finish != "" && e.usage.Some? {
        ContentsAppend(text, [FinalChunk(FeedAll(s.accs, c.toolCalls), c.finish, e.usage.value)]);
      } else {
        assert text + [] == text;
      }
    }
  }

  lemma ClosingText(s: State, broken: bool)
    requires Textless(s)
    ensures Contents(Closing(s, broken)) == ""
  {
    ContentsAppend(Held(s.pending), if broken then [ErrorChunk("stream read")] else []);
  }

  lemma {:induction false} ContentFrom(s: State, es: seq<Event>)
    requires Textless(s) && !s.ended
    ensures Contents(EmitsAll(s, es)) == Texts(Live(es)) && Textless(AfterAll(s, es))
    decreases es
  {
    if es != [] {
      var e := es[0];
      var next := After(s, e);
      EmittedText(s, e);
      ContentsAppend(Emits(s, e), EmitsAll(next, es[1..]));
      assert EmitsAll(s, es) == Emits(s, e) + EmitsAll(next, es[1..]);
      if next.ended {
        NothingAfterEnd(next, es[1..]);
      } else {
        ContentFrom(next, es[1..]);
        assert Live(es) == [e] + Live(es[1..]);
      }
    }
  }

  /** No text is lost, added or moved: the chunks carry the texts of the events read. */
  lemma ContentConserved(es: seq<Event>, broken: bool)
    ensures Contents(Parse(es, broken)) == Texts(Live(es))
  {
    var s := AfterAll(START, es);
    ContentFrom(START, es);
    ClosingText(s, broken);
    ContentsAppend(EmitsAll(START, es), Closing(s, broken));
  }

  /** One field of the first choices of the events, put together. */
  function Field(es: seq<Event>, field: Choice -> string): string {
    if es == [] then ""
    else (if es[0].Data? && es[0].choices != [] then field(es[0].choices[0]) else "") + Field(es[1..], field)
  }

  lemma {:induction false} TextsField(es: seq<Event>, field: Choice -> string)
    requires forall e | e in es && e.Data? && e.choices != [] :: Text(e.choices[0]) == field(e.choices[0])
    ensures Texts(es) == Field(es, field)
  {
    if es != [] {
      assert es[0] in es && forall e | e in es[1..] :: e in es;
      TextsField(es[1..], field);
    }
  }

  const CONTENT: Choice -> string := (c: Choice) => c.content
  const REASONING_CONTENT: Choice -> string := (c: Choice) => c.reasoningContent
  const REASONING: Choice -> string := (c: Choice) => c.reasoning

  /** What is sent is the content, if every choice read has content or has no reasoning. */
  lemma ContentSent(es: seq<Event>, broken: bool)
    requires forall e | e in Live(es) && e.Data? && e.choices != [] ::
      e.choices[0].content != "" || (e.choices[0].reasoningContent == "" && e.choices[0].reasoning == "")
    ensures Contents(Parse(es, broken)) == Field(Live(es), CONTENT)
  {
    TextsField(Live(es), CONTENT);
    ContentConserved(es, broken);
  }

  /** Without content it is reasoning_content, and without either it is reasoning. */
  lemma ReasoningContentSent(es: seq<Event>, broken: bool)
    requires forall e | e in Live(es) && e.Data? && e.choices != [] ::
      e.choices[0].content == "" && (e.choices[0].reasoningContent != "" || e.choices[0].reasoning == "")
    ensures Contents(Parse(es, broken)) == Field(Live(es), REASONING_CONTENT)
  {
    TextsField(Live(es), REASONING_CONTENT);
    ContentConserved(es, broken);
  }

  lemma ReasoningSent(es: seq<Event>, broken: bool)
    requires forall e | e in Live(es) && e.Data? && e.choices != [] ::
      e.choices[0].content == "" && e.choices[0].reasoningContent == ""
    ensures Contents(Parse(es, broken)) == Field(Live(es), REASONING)
  {
    TextsField(Live(es), REASONING);
    ContentConserved(es, broken);
  }

  function DeltasIn(e: Event): seq<Delta> {
    if e.Data? && e.choices != [] then e.choices[0].toolCalls else []
  }

  function Deltas(es: seq<Event>): seq<Delta> {
    if es == [] then [] else DeltasIn(es[0]) + Deltas(es[1..])
  }

  /** The deltas of one index, in order. */
  function Of(ds: seq<Delta>, i: int): seq<Delta> {
    if ds == [] then []
    else
      var before, last := Of(ds[..|ds| - 1], i), ds[|ds| - 1];
      if last.index == i then before + [last] else before
  }

  function Fragments(ds: seq<Delta>): string {
    if ds == [] then "" else Fragments(ds[..|ds| - 1]) + ds[|ds| - 1].arguments
  }

  function LastName(ds: seq<Delta>): string {
    if ds == [] then "" else if ds[|ds| - 1].name != "" then ds[|ds| - 1].name else LastName(ds[..|ds| - 1])
  }

  /** What the deltas of an index say, taken all at once: the first one's id and type, the
      last name given, and the fragments in order. */
  predicate Says(ds: seq<Delta>, acc: Acc) {
    ds != [] && acc == Acc(ds[0].id, ds[0].typ, LastName(ds), Fragments(ds))
  }

  /** The accumulators are what the deltas say, index by index. */
  lemma {:induction false} FedIsBatch(ds: seq<Delta>)
    ensures var accs := FeedAll(map[], ds);
      forall i :: (i in accs <==> Of(ds, i) != []) && (i in accs ==> Says(Of(ds, i), accs[i]))
  {
    if ds != [] {
      var before, d := ds[..|ds| - 1], ds[|ds| - 1];
      var accs := FeedAll(map[], before);
      FedIsBatch(before);
      forall i ensures var all := Feed(accs, d);
        (i in all <==> Of(ds, i) != []) && (i in all ==> Says(Of(ds, i), all[i]))
      {
        var own := Of(before, i);
        if i == d.index {
          assert (own + [d])[..|own|] == own;
          assert i in accs <==> own != [];
        }
      }
    }
  }

  lemma {:induction false} FeedAppend(accs: Accs, xs: seq<Delta>, ys: seq<Delta>)
    ensures FeedAll(accs, xs + ys) == FeedAll(FeedAll(accs, xs), ys)
  {
    if ys == [] {
      assert xs + ys == xs;
    } else {
      var init, both := ys[..|ys| - 1], xs + ys;
      FeedAppend(accs, xs, init);
      assert both[..|both| - 1] == xs + init;
    }
  }

  lemma AccsAfter(s: State, e: Event)
    requires !s.ended && !e.DoneMark? && !e.Malformed?
    ensures !After(s, e).ended && After(s, e).accs == FeedAll(s.accs, DeltasIn(e))
  {
  }

  /** No event of es ends the stream. */
  predicate AllRead(es: seq<Event>) {
    forall e | e in es :: !e.DoneMark? && !e.Malformed?
  }

  lemma {:induction false} AccsAfterAll(es: seq<Event>)
    requires AllRead(es)
    ensures var s := AfterAll(START, es); !s.ended && s.accs == FeedAll(map[], Deltas(es))
  {
    if es != [] {
      var before, e := es[..|es| - 1], es[|es| - 1];
      assert e in es && AllRead(before);
      AccsAfterAll(before);
      AccsSnoc(before, e);
      assert es == before + [e];
    }
  }

  lemma AccsSnoc(before: seq<Event>, e: Event)
    requires !e.DoneMark? && !e.Malformed?
    requires var s := AfterAll(START, before); !s.ended && s.accs == FeedAll(map[], Deltas(before))
    ensures var s := AfterAll(START, before + [e]); !s.ended && s.accs == FeedAll(map[], Deltas(before + [e]))
  {
    Steps(START, before, [e]);
    assert [e][1..] == [];
    AccsAfter(AfterAll(START, before), e);
    FedWith(before, e);
  }

  lemma {:induction false} DeltasExtend(es: seq<Event>, e: Event)
    ensures Deltas(es + [e]) == Deltas(es) + DeltasIn(e)
  {
    if es == [] {
      assert [e][1..] == [];
    } else {
      Sequences.AppendTail(es, [e]);
      DeltasExtend(es[1..], e);
      Sequences.Assoc(DeltasIn(es[0]), Deltas(es[1..]), DeltasIn(e));
    }
  }

  lemma FedWith(es: seq<Event>, e: Event)
    ensures FeedAll(FeedAll(map[], Deltas(es)), DeltasIn(e)) == FeedAll(map[], Deltas(es + [e]))
  {
    var more := DeltasIn(e);
    DeltasExtend(es, e);
    FeedAppend(map[], Deltas(es), more);
  }

  lemma {:induction false} LivePrefix(es: seq<Event>)
    ensures |Live(es)| <= |es| && Live(es) == es[..|Live(es)|] && AllRead(Live(es))
    ensures |Live(es)| < |es| ==> es[|Live(es)|].DoneMark? || es[|Live(es)|].Malformed?
  {
    if es != [] && !es[0].DoneMark? && !es[0].Malformed? {
      LivePrefix(es[1..]);
    }
  }

  // -------------------------------------------------------------------- final chunks

  function FinishOf(e: Event): string {
    if e.Data? && e.choices != [] then e.choices[0].finish else ""
  }

  /** c is the final chunk of event p: its finish reason, and the tool calls so far. */
  predicate FinalAt(es: seq<Event>, p: nat, c: StreamChunk) {
    && p < |es| && FinishOf(es[p]) != ""
    && c == FinalChunk(FeedAll(map[], Deltas(es[..p + 1])), FinishOf(es[p]), c.usage)
  }

  /** A usage report that comes without a choice. */
  function Report(e: Event): Option<Usage> {
    if e.Data? && e.choices == [] then e.usage else None
  }

  function FirstReport(es: seq<Event>): Option<Usage> {
    if es == [] then None else if Report(es[0]).Some? then Report(es[0]) else FirstReport(es[1..])
  }

  function WithUsage(c: StreamChunk, usage: Option<Usage>): StreamChunk {
    if usage.Some? then c.(usage := usage.value) else c
  }

  predicate FinalUpTo(es: seq<Event>, n: nat, c: StreamChunk) {
    exists p | 0 <= p < n :: FinalAt(es, p, c)
  }

  lemma FinalsStep(es: seq<Event>, n: nat, s: State)
    requires n < |es| && !s.ended && !es[n].DoneMark? && !es[n].Malformed?
    requires FeedAll(s.accs, DeltasIn(es[n])) == FeedAll(map[], Deltas(es[..n + 1]))
    requires s.pending.Some? ==> FinalUpTo(es, n, s.pending.value)
    ensures var next := After(s, es[n]); next.pending.Some? ==> FinalUpTo(es, n + 1, next.pending.value)
    ensures forall c | c in Emits(s, es[n]) && c.done :: FinalUpTo(es, n + 1, c)
  {
    var e := es[n];
    DoneEmitted(s, e);
    if s.pending.Some? {
      var p: nat :| p < n && FinalAt(es, p, s.pending.value);
      assert FinalAt(es, p, s.pending.value) && FinalAt(es, p, WithUsage(s.pending.value, Report(e)));
    }
    if FinishOf(e) != "" {
      assert FinalAt(es, n, OwnFinal(s, e)) && FinalAt(es, n, WithUsage(OwnFinal(s, e), e.usage));
    }
  }

  /** The final chunk an event with a finish reason makes. */
  function OwnFinal(s: State, e: Event): StreamChunk {
    FinalChunk(FeedAll(s.accs, DeltasIn(e)), FinishOf(e), NO_USAGE)
  }

  lemma DoneEmitted(s: State, e: Event)
    requires !s.ended && !e.DoneMark? && !e.Malformed?
    ensures forall c | c in Emits(s, e) && c.done ::
      (FinishOf(e) != "" && c == WithUsage(OwnFinal(s, e), e.usage))
      || (s.pending.Some? && c == WithUsage(s.pending.value, Report(e)))
    ensures var after := After(s, e).pending;
      after.Some? ==> after == s.pending || (FinishOf(e) != "" && after.value == OwnFinal(s, e))
  {
  }

  /** Every final chunk sent or held is that of one of the first n events. */
  predicate FinalsKnown(es: seq<Event>, n: nat, s: State, out: Chunks) {
    && (s.pending.Some? ==> FinalUpTo(es, n, s.pending.value))
    && (forall c | c in out && c.done :: FinalUpTo(es, n, c))
  }

  lemma FinalsExtend(es: seq<Event>, n: nat, s: State, out: Chunks)
    requires n < |es| && !s.ended && !es[n].DoneMark? && !es[n].Malformed?
    requires FeedAll(s.accs, DeltasIn(es[n])) == FeedAll(map[], Deltas(es[..n + 1]))
    requires FinalsKnown(es, n, s, out)
    ensures FinalsKnown(es, n + 1, After(s, es[n]), out + Emits(s, es[n]))
  {
    FinalsStep(es, n, s);
    forall c | c in out && c.done ensures FinalUpTo(es, n + 1, c) {
      var p: nat :| p < n && FinalAt(es, p, c);
    }
  }

  lemma AccsWith(es: seq<Event>, n: nat)
    requires n < |es| && AllRead(es[..n])
    ensures var s := AfterAll(START, es[..n]);
      !s.ended && FeedAll(s.accs, DeltasIn(es[n])) == FeedAll(map[], Deltas(es[..n + 1]))
  {
    AccsAfterAll(es[..n]);
    FedWith(es[..n], es[n]);
    assert es[..n + 1] == es[..n] + [es[n]];
  }

  lemma {:induction false} FinalsUpTo(es: seq<Event>, n: nat)
    requires n <= |es| && AllRead(es[..n])
    ensures FinalsKnown(es, n, AfterAll(START, es[..n]), EmitsAll(START, es[..n]))
  {
    if n > 0 {
      var m := n - 1;
      assert es[..n] == es[..m] + [es[m]];
      FinalsUpTo(es, m);
      AccsWith(es, m);
      Extend(es, m, AfterAll(START, es[..m]), EmitsAll(START, es[..m]));
      FinalsExtend(es, m, AfterAll(START, es[..m]), EmitsAll(START, es[..m]));
    }
  }

  /** Every chunk sent is a text, an error, or the final chunk of some event read, with
      exactly the tool calls that event and those before it made up. */
  lemma EveryChunk(es: seq<Event>, broken: bool)
    ensures forall c | c in Parse(es, broken) ::
      !c.done || c.error.Some? || FinalUpTo(es, |Live(es)|, c)
  {
    var n := |Live(es)|;
    LivePrefix(es);
    FinalsUpTo(es, n);
    ParseEnds(es, broken);
  }

  /** A final chunk is done, has the finish reason its event gives, and no text. */
  lemma FinalShows(es: seq<Event>, p: nat, c: StreamChunk)
    requires FinalAt(es, p, c)
    ensures es[p].Data? && es[p].choices != [] && c.finish == es[p].choices[0].finish && c.finish != ""
    ensures c.done && c.error.None? && c.content == "" && c.reasoning == ""
  {
  }

  /** The tool calls of a final chunk, index by index, from the deltas up to its event. */
  lemma FinalToolCalls(es: seq<Event>, p: nat, c: StreamChunk, i: int)
    requires FinalAt(es, p, c)
    ensures var own := Of(Deltas(es[..p + 1]), i);
      && (i in c.toolCalls <==> own != [])
      && (own != [] ==> c.toolCalls[i] == ToolCall(i, own[0].id, own[0].typ, LastName(own), Fragments(own)))
  {
    FedIsBatch(Deltas(es[..p + 1]));
  }

  /** What is sent after the events read. */
  function Ending(es: seq<Event>, broken: bool, pending: Option<StreamChunk>): Chunks {
    var n := |Live(es)|;
    if n < |es| then if es[n].DoneMark? then Held(pending) else [ErrorChunk("parse chunk")]
    else Held(pending) + if broken then [ErrorChunk("stream read")] else []
  }

  lemma ParseEnds(es: seq<Event>, broken: bool)
    ensures Parse(es, broken) == EmitsAll(START, Live(es)) + Ending(es, broken, AfterAll(START, Live(es)).pending)
  {
    var n := |Live(es)|;
    LivePrefix(es);
    AccsAfterAll(Live(es));
    if n < |es| {
      EndsAt(es, broken, n);
    } else {
      assert es[..n] == es;
    }
  }

  lemma EndsAt(es: seq<Event>, broken: bool, n: nat)
    requires n < |es| && (es[n].DoneMark? || es[n].Malformed?) && !AfterAll(START, es[..n]).ended
    ensures Parse(es, broken) == EmitsAll(START, es[..n]) + Emits(AfterAll(START, es[..n]), es[n])
  {
    Extend(es, n, AfterAll(START, es[..n]), EmitsAll(START, es[..n]));
    Ended(es, n + 1, broken);
  }

  function Finals(chunks: Chunks): Chunks {
    if chunks == [] then []
    else if chunks[0].done && chunks[0].error.None? then [chunks[0]] + Finals(chunks[1..])
    else Finals(chunks[1..])
  }

  lemma {:induction false} FinalsAppend(a: Chunks, b: Chunks)
    ensures Finals(a + b) == Finals(a) + Finals(b)
  {
    if a == [] {
      assert a + b == b;
    } else {
      var both := a + b;
      assert both[0] == a[0] && both[1..] == a[1..] + b;
      FinalsAppend(a[1..], b);
    }
  }

  lemma StepFinals(s: State, e: Event)
    requires !s.ended && !e.DoneMark? && !e.Malformed? && FinishOf(e) == ""
    requires s.pending.Some? ==> s.pending.value.done && s.pending.value.error.None?
    ensures
      if Report(e).Some? then
        Finals(Emits(s, e)) == (if s.pending.Some? then [WithUsage(s.pending.value, Report(e))] else []) && After(s, e).pending == None
      else Finals(Emits(s, e)) == [] && After(s, e).pending == s.pending
  {
    if e.Data? && e.choices != [] {
      var text := TextChunk(Text(e.choices[0]));
      assert Finals(text) == [] && text + [] == text;
    }
  }

  /** Without a finish reason, a held chunk waits for the first usage report. */
  lemma {:induction false} Waiting(s: State, es: seq<Event>)
    requires !s.ended && AllRead(es) && (forall e | e in es :: FinishOf(e) == "")
    requires s.pending.Some? ==> s.pending.value.done && s.pending.value.error.None?
    ensures var u, after := FirstReport(es), AfterAll(s, es).pending;
      if s.pending.Some? && u.Some? then Finals(EmitsAll(s, es)) == [WithUsage(s.pending.value, u)] && after == None
      else Finals(EmitsAll(s, es)) == [] && after == s.pending
    decreases es
  {
    if es != [] {
      var e, next := es[0], After(s, es[0]);
      StepFinals(s, e);
      AccsAfter(s, e);
      FinalsAppend(Emits(s, e), EmitsAll(next, es[1..]));
      Waiting(next, es[1..]);
    }
  }

  /** From the event with the finish reason on. */
  lemma FromFinish(s: State, e: Event, later: seq<Event>)
    requires !s.ended && FinishOf(e) != ""
    requires AllRead(later) && forall e | e in later :: FinishOf(e) == ""
    ensures var usage := if e.usage.Some? then e.usage else FirstReport(later);
      var final := OwnFinal(s, e);
      var out, after := Finals(EmitsAll(s, [e] + later)), AfterAll(s, [e] + later).pending;
      if usage.Some? then out == [WithUsage(final, usage)] && after == None else out == [] && after == Some(final)
  {
    var next := After(s, e);
    var all := [e] + later;
    assert all[0] == e && all[1..] == later;
    FinishStep(s, e);
    AccsAfter(s, e);
    FinalsAppend(Emits(s, e), EmitsAll(next, later));
    Waiting(next, later);
  }

  lemma FinishStep(s: State, e: Event)
    requires !s.ended && FinishOf(e) != ""
    ensures var final := OwnFinal(s, e);
      if e.usage.Some? then Finals(Emits(s, e)) == [WithUsage(final, e.usage)] && After(s, e).pending == None
      else Finals(Emits(s, e)) == [] && After(s, e).pending == Some(final)
  {
    var text := TextChunk(Text(e.choices[0]));
    var final := OwnFinal(s, e);
    assert Finals(text) == [];
    if e.usage.Some? {
      FinalsAppend(text, [WithUsage(final, e.usage)]);
      assert Emits(s, e) == text + [WithUsage(final, e.usage)];
    }
  }

  /** p is the one event read that gives a finish reason. */
  predicate FinishesOnce(es: seq<Event>, p: nat) {
    && p < |Live(es)| <= |es| && FinishOf(es[p]) != ""
    && forall q | 0 <= q < |Live(es)| && q != p :: FinishOf(es[q]) == ""
  }

  /** A stream with one finish reason: one final chunk is sent, with the usage of its own
      event or of the first report after it, unless data that is no JSON comes first; then
      no final chunk is sent at all. */
  lemma OneFinish(es: seq<Event>, broken: bool, p: nat)
    requires FinishesOnce(es, p)
    ensures var usage := if es[p].usage.Some? then es[p].usage else FirstReport(Live(es)[p + 1..]);
      var cut := |Live(es)| < |es| && es[|Live(es)|].Malformed?;
      Finals(Parse(es, broken)) ==
        if usage.None? && cut then []
        else [WithUsage(FinalChunk(FeedAll(map[], Deltas(es[..p + 1])), FinishOf(es[p]), NO_USAGE), usage)]
  {
    var live := Live(es);
    LivePrefix(es);
    assert es[..p + 1] == live[..p + 1];
    LiveFinish(live, p);
    ParseFinals(es, broken);
  }

  /** That chunk, field by field: the finish reason of its event, and its usage, if it has
      one. */
  lemma OneFinishShows(es: seq<Event>, broken: bool, p: nat)
    requires FinishesOnce(es, p) && Finals(Parse(es, broken)) != []
    ensures var cs := Finals(Parse(es, broken));
      && |cs| == 1 && FinalAt(es, p, cs[0]) && cs[0].finish == es[p].choices[0].finish
      && (es[p].usage.Some? ==> cs[0].usage == es[p].usage.value)
  {
    OneFinish(es, broken, p);
  }

  /** Otherwise it is the usage of the first later event that reports one without a choice. */
  lemma LaterUsageShows(es: seq<Event>, broken: bool, p: nat, q: nat)
    requires FinishesOnce(es, p) && Finals(Parse(es, broken)) != [] && es[p].usage.None?
    requires p < q < |Live(es)| && es[q].Data? && es[q].choices == [] && es[q].usage.Some?
    requires forall j | p < j < q && es[j].Data? && es[j].choices == [] :: es[j].usage.None?
    ensures Finals(Parse(es, broken))[0].usage == es[q].usage.value
  {
    var later := Live(es)[p + 1..];
    LivePrefix(es);
    LaterIs(es, p);
    ReportedAt(later, q - p - 1);
    OneFinish(es, broken, p);
  }

  lemma LaterIs(es: seq<Event>, p: nat)
    requires p < |Live(es)| <= |es| && Live(es) == es[..|Live(es)|]
    ensures var later := Live(es)[p + 1..];
      |later| == |Live(es)| - p - 1 && forall j | 0 <= j < |later| :: later[j] == es[p + 1 + j]
  {
  }

  /** Without any such report it is no usage. */
  lemma NoUsageShows(es: seq<Event>, broken: bool, p: nat)
    requires FinishesOnce(es, p) && Finals(Parse(es, broken)) != [] && es[p].usage.None?
    requires forall j | p < j < |Live(es)| && es[j].Data? && es[j].choices == [] :: es[j].usage.None?
    ensures Finals(Parse(es, broken))[0].usage == Usage(0, 0, 0, 0, 0)
  {
    LivePrefix(es);
    LaterIs(es, p);
    NoReport(Live(es)[p + 1..]);
    OneFinish(es, broken, p);
  }

  lemma {:induction false} NoReport(es: seq<Event>)
    ensures FirstReport(es).None? <==> forall j | 0 <= j < |es| :: Report(es[j]).None?
  {
    if es != [] {
      NoReport(es[1..]);
      assert forall j | 0 < j < |es| :: es[j] == es[1..][j - 1];
    }
  }

  lemma {:induction false} ReportedAt(es: seq<Event>, n: nat)
    requires n < |es| && Report(es[n]).Some? && forall j | 0 <= j < n :: Report(es[j]).None?
    ensures FirstReport(es) == Report(es[n])
  {
    if n > 0 {
      assert Report(es[0]).None?;
      ReportedAt(es[1..], n - 1);
    }
  }

  lemma LiveFinish(live: seq<Event>, p: nat)
    requires p < |live| && FinishOf(live[p]) != ""
    requires AllRead(live) && forall q | 0 <= q < |live| && q != p :: FinishOf(live[q]) == ""
    ensures var usage := if live[p].usage.Some? then live[p].usage else FirstReport(live[p + 1..]);
      var final := FinalChunk(FeedAll(map[], Deltas(live[..p + 1])), FinishOf(live[p]), NO_USAGE);
      var out, pending := Finals(EmitsAll(START, live)), AfterAll(START, live).pending;
      if usage.Some? then out == [WithUsage(final, usage)] && pending == None else out == [] && pending == Some(final)
  {
    var before, e, later := live[..p], live[p], live[p + 1..];
    var s := AfterAll(START, before);
    assert !s.ended && s.accs == FeedAll(map[], Deltas(before)) by {
      AccsAfterAll(before);
    }
    assert Finals(EmitsAll(START, before)) == [] && s.pending == None by {
      Waiting(START, before);
    }
    assert FeedAll(s.accs, DeltasIn(e)) == FeedAll(map[], Deltas(live[..p + 1])) by {
      assert live[..p + 1] == before + [e];
      FedWith(before, e);
    }
    FromFinish(s, e, later);
    Sequences.Around(live, p);
    Steps(START, before, [e] + later);
    FinalsAppend(EmitsAll(START, before), EmitsAll(s, [e] + later));
  }

  lemma ParseFinals(es: seq<Event>, broken: bool)
    ensures var pending := AfterAll(START, Live(es)).pending;
      Finals(Parse(es, broken)) == Finals(EmitsAll(START, Live(es))) +
        if |Live(es)| < |es| && !es[|Live(es)|].DoneMark? then [] else Held(pending)
  {
    var n := |Live(es)|;
    var pending := AfterAll(START, Live(es)).pending;
    LivePrefix(es);
    ParseEnds(es, broken);
    FinalsAppend(EmitsAll(START, Live(es)), Ending(es, broken, pending));
    FinalsUpTo(es, n);
    EndingFinals(es, broken, pending);
  }

  lemma EndingFinals(es: seq<Event>, broken: bool, pending: Option<StreamChunk>)
    requires pending.Some? ==> pending.value.done && pending.value.error.None?
    ensures Finals(Ending(es, broken, pending)) ==
      if |Live(es)| < |es| && !es[|Live(es)|].DoneMark? then [] else Held(pending)
  {
    FinalsAppend(Held(pending), if broken then [ErrorChunk("stream read")] else []);
  }
}
