/** Theorems over every interleaving of the steps of Rpc. */
module RpcRuns {
  import opened Options
  import opened Rpc
  import Sequences

  predicate Possible(s: State, es: seq<Event>)
    decreases es
  {
    es == [] || (Legal(s, es[0]) && Possible(Next(s, es[0]), es[1..]))
  }

  function After(s: State, es: seq<Event>): State
    requires Possible(s, es)
    decreases es
  {
    if es == [] then s else After(Next(s, es[0]), es[1..])
  }

  /** The responses, in order, that were looked up while their call was in pending. */
  function Handled(s: State, es: seq<Event>): seq<Message>
    requires Possible(s, es)
    decreases es
  {
    if es == [] then [] else HandledBy(s, es[0]) + Handled(Next(s, es[0]), es[1..])
  }

  function HandledBy(s: State, e: Event): seq<Message> {
    if e.Read? && Answers(s, e.line) then [e.line.msg] else []
  }

  function First(log: seq<Message>, id: int): Option<Message> {
    if log == [] then None else if log[0].id == id then Some(log[0]) else First(log[1..], id)
  }

  lemma {:induction false} FirstAppend(log: seq<Message>, more: seq<Message>, id: int)
    ensures First(log + more, id) == if First(log, id).Some? then First(log, id) else First(more, id)
  {
    if log == [] {
      assert log + more == more;
    } else {
      var both := log + more;
      assert both[0] == log[0] && both[1..] == log[1..] + more;
      FirstAppend(log[1..], more, id);
    }
  }

  lemma {:induction false} NoneOf(log: seq<Message>, id: int)
    requires forall m | m in log :: m.id != id
    ensures First(log, id) == None
  {
    if log != [] {
      assert log[0] in log;
      NoneOf(log[1..], id);
    }
  }

  // ---------------------------------------------------------------- the first response

  /** The responses handled and already offered to their channel. */
  function Offered(s: State, log: seq<Message>): seq<Message> {
    if s.reader.Holding? && log != [] then log[..|log| - 1] else log
  }

  predicate HoldsLast(s: State, log: seq<Message>) {
    && (s.reader.Holding? ==> log != [] && log[|log| - 1] == s.reader.msg)
    && (forall m | m in log :: m.id in s.buffers)
  }

  /** What c has received, or will find, is the first response with its number. */
  predicate FirstOnly(s: State, log: seq<Message>, c: nat)
    requires c in s.callers
  {
    var p := s.callers[c];
    match p
    case Numbered(_) => true
    case Sending(id) => id in s.buffers && s.buffers[id] == First(Offered(s, log), id)
    case Waiting(id) => id in s.buffers && s.buffers[id] == First(Offered(s, log), id)
    case Leaving(id, out) => out.Got? ==> First(Offered(s, log), id) == Some(out.msg)
    case Returned(id, out) => out.Got? ==> First(Offered(s, log), id) == Some(out.msg)
  }

  lemma StepKeepsHeld(s: State, e: Event, log: seq<Message>)
    requires Legal(s, e) && Inv(s) && HoldsLast(s, log)
    ensures HoldsLast(Next(s, e), log + HandledBy(s, e))
  {
    if e.Read? && Answers(s, e.line) {
      assert Owned(s, e.line.msg.id);
    }
  }

  /** Only a delivery adds to what was offered. */
  lemma OfferedStep(s: State, e: Event, log: seq<Message>)
    requires Legal(s, e) && HoldsLast(s, log)
    ensures Offered(Next(s, e), log + HandledBy(s, e)) ==
      if e.Deliver? then Offered(s, log) + [s.reader.msg] else Offered(s, log)
  {
    if e.Read? && Answers(s, e.line) {
      Sequences.Snoc(log, e.line.msg);
    } else {
      Sequences.Unit(log);
      if e.Deliver? {
        Sequences.Last(log);
      }
    }
  }

  lemma StepKeepsFirst(s: State, e: Event, log: seq<Message>, c: nat)
    requires Legal(s, e) && Inv(s) && HoldsLast(s, log) && c in Next(s, e).callers
    requires c in s.callers ==> FirstOnly(s, log, c)
    ensures FirstOnly(Next(s, e), log + HandledBy(s, e), c)
  {
    OfferedStep(s, e, log);
    if c in s.callers {
      var id := s.callers[c].id;
      var offered := Offered(s, log);
      if e.Deliver? {
        FirstAppend(offered, [s.reader.msg], id);
        assert [s.reader.msg][1..] == [];
      } else if e == Register(c) {
        NoneOf(offered, id);
      }
    }
  }

  ghost predicate Kept(s: State, log: seq<Message>) {
    Inv(s) && HoldsLast(s, log) && forall c | c in s.callers :: FirstOnly(s, log, c)
  }

  lemma StepKeeps(s: State, e: Event, log: seq<Message>)
    requires Legal(s, e) && Kept(s, log)
    ensures Kept(Next(s, e), log + HandledBy(s, e))
  {
    StepKeepsInv(s, e);
    StepKeepsHeld(s, e, log);
    forall c | c in Next(s, e).callers ensures FirstOnly(Next(s, e), log + HandledBy(s, e), c) {
      StepKeepsFirst(s, e, log, c);
    }
  }

  /** Over a whole run, given what was handled before it. */
  lemma {:induction false} RunKeeps(s: State, es: seq<Event>, log: seq<Message>)
    requires Possible(s, es) && Kept(s, log)
    ensures Kept(After(s, es), log + Handled(s, es))
    decreases es
  {
    if es == [] {
      assert log + [] == log;
    } else {
      StepKeeps(s, es[0], log);
      HandledFirst(s, es, log);
      RunKeeps(Next(s, es[0]), es[1..], log + HandledBy(s, es[0]));
    }
  }

  lemma HandledFirst(s: State, es: seq<Event>, log: seq<Message>)
    requires es != [] && Possible(s, es)
    ensures (log + HandledBy(s, es[0])) + Handled(Next(s, es[0]), es[1..]) == log + Handled(s, es)
  {
    Sequences.Assoc(log, HandledBy(s, es[0]), Handled(Next(s, es[0]), es[1..]));
  }

  lemma FromStart(es: seq<Event>)
    requires Possible(START, es)
    ensures Kept(After(START, es), Handled(START, es))
  {
    RunKeeps(START, es, []);
    assert [] + Handled(START, es) == Handled(START, es);
  }

  /** A call that returns a message returns the first response handled for its number. */
  lemma GetsFirstHandled(es: seq<Event>, c: nat)
    requires Possible(START, es) && c in After(START, es).callers
    requires var p := After(START, es).callers[c]; (p.Leaving? || p.Returned?) && p.out.Got?
    ensures var p := After(START, es).callers[c];
      p.out.msg.id == p.id && First(Handled(START, es), p.id) == Some(p.out.msg)
  {
    var s, log := After(START, es), Handled(START, es);
    FromStart(es);
    assert FirstOnly(s, log, c);
    if s.reader.Holding? {
      Sequences.Last(log);
      FirstAppend(log[..|log| - 1], [log[|log| - 1]], s.callers[c].id);
    }
  }

  // ------------------------------------------------------------------ the lines read

  /** c has entered pending and has not left it. */
  predicate Registered(s: State, c: nat) {
    c in s.callers && (s.callers[c].Sending? || s.callers[c].Waiting? || s.callers[c].Leaving?)
  }

  /** A line is read that has c's number and no method name, while c is registered. */
  predicate ReadsFor(s: State, e: Event, c: nat) {
    && e.Read? && e.line.Decoded? && Registered(s, c)
    && e.line.msg.id == s.callers[c].id && e.line.msg.methodName == ""
  }

  /** All such lines of a run, whatever else they hold. */
  function LinesFor(s: State, es: seq<Event>, c: nat): seq<Message>
    requires Possible(s, es)
    decreases es
  {
    if es == [] then []
    else (if ReadsFor(s, es[0], c) then [es[0].line.msg] else []) + LinesFor(Next(s, es[0]), es[1..], c)
  }

  /** A call keeps its number, and later calls get greater ones. */
  lemma {:induction false} NumberKept(s: State, es: seq<Event>, c: nat)
    requires Possible(s, es) && c in After(s, es).callers
    ensures if c in s.callers then After(s, es).callers[c].id == s.callers[c].id else After(s, es).callers[c].id > s.nextID
    decreases es
  {
    if es != [] {
      NumberKept(Next(s, es[0]), es[1..], c);
    }
  }

  /** What is handled for a number is what is read for its call. */
  lemma {:induction false} HandledIsRead(s: State, es: seq<Event>, c: nat)
    requires Inv(s) && Possible(s, es) && c in After(s, es).callers
    ensures var lines := LinesFor(s, es, c);
      First(Handled(s, es), After(s, es).callers[c].id) == if lines == [] then None else Some(lines[0])
    decreases es
  {
    if es != [] {
      var id := After(s, es).callers[c].id;
      NumberKept(s, es, c);
      StepKeepsInv(s, es[0]);
      HandledIsRead(Next(s, es[0]), es[1..], c);
      StepHandles(s, es[0], c, id);
      FirstAppend(HandledBy(s, es[0]), Handled(Next(s, es[0]), es[1..]), id);
    }
  }

  lemma StepHandles(s: State, e: Event, c: nat, id: int)
    requires Inv(s) && if c in s.callers then id == s.callers[c].id else id > s.nextID
    ensures First(HandledBy(s, e), id) == if ReadsFor(s, e, c) then Some(e.line.msg) else None
  {
    if e.Read? && Answers(s, e.line) {
      assert Owned(s, e.line.msg.id);
      Sequences.Cons(e.line.msg, []);
    }
  }

  /** A call that returns a message returns the first line with its own number and no method
      name that was read while it was registered, be it a result or an error, and whatever
      duplicates, late or unknown responses, cancellations and other calls came between. */
  lemma GetsFirstResponse(es: seq<Event>, c: nat)
    requires Possible(START, es) && c in After(START, es).callers
    requires var p := After(START, es).callers[c]; (p.Leaving? || p.Returned?) && p.out.Got?
    ensures var lines := LinesFor(START, es, c); lines != [] && After(START, es).callers[c].out.msg == lines[0]
  {
    GetsFirstHandled(es, c);
    HandledIsRead(START, es, c);
  }

  /** No response is lost while its call waits: once the reader has handed it over, the
      call can take it, and it is the first one read for it. */
  lemma ResponseCanBeTaken(es: seq<Event>, c: nat)
    requires Possible(START, es) && c in After(START, es).callers && After(START, es).callers[c].Waiting?
    requires !After(START, es).reader.Holding?
    ensures var s, lines := After(START, es), LinesFor(START, es, c);
      && (lines != [] <==> Legal(s, Take(c)))
      && (lines != [] ==> Next(s, Take(c)).callers[c] == Leaving(s.callers[c].id, Got(lines[0])))
  {
    FromStart(es);
    HandledIsRead(START, es, c);
    assert FirstOnly(After(START, es), Handled(START, es), c);
  }

  /** A message with the number of a waiting call and no method name, be it a result or an
      error, reaches that call: the reader reads it, hands it over, and the call takes it. */
  lemma ResponseArrives(es: seq<Event>, c: nat, msg: Message, handler: bool)
    requires Possible(START, es)
    requires var s := After(START, es);
      && s.reader.Reading? && c in s.callers && s.callers[c].Waiting?
      && s.callers[c].id == msg.id && msg.methodName == ""
      && msg.id in s.buffers && s.buffers[msg.id].None?
    ensures var s, steps := After(START, es), [Read(Decoded(msg), handler)] + ([Deliver] + ([Take(c)] + []));
      && Possible(s, steps) && After(s, steps).reader.Reading?
      && c in After(s, steps).callers && After(s, steps).callers[c] == Leaving(msg.id, Got(msg))
  {
    ReachableInv(es);
    var s := After(START, es);
    var a := Next(s, Read(Decoded(msg), handler));
    var b := Next(a, Deliver);
    OneMore(b, Take(c), []);
    OneMore(a, Deliver, [Take(c)] + []);
    OneMore(s, Read(Decoded(msg), handler), [Deliver] + ([Take(c)] + []));
  }

  /** What a line does otherwise: one with a method name goes to the handler, if there is
      one; a line that is blank or no JSON, or a response to no registered call, is passed
      over. */
  lemma OtherLines(es: seq<Event>, line: Line, handler: bool)
    requires Possible(START, es) && After(START, es).reader.Reading?
    ensures var s, t := After(START, es), Next(After(START, es), Read(line, handler));
      && (line.Decoded? && line.msg.methodName != "" ==> t == if handler then s.(reader := Handling(None)) else s)
      && (!line.Decoded? ==> t == s)
      && (line.Decoded? && line.msg.methodName == "" && (forall c | Registered(s, c) :: s.callers[c].id != line.msg.id) ==> t == s)
  {
    ReachableInv(es);
    var s := After(START, es);
    if line.Decoded? && line.msg.id in s.pending {
      assert Owned(s, line.msg.id);
      var c :| c in s.callers && s.callers[c].id == line.msg.id;
      assert Registered(s, c);
    }
  }

  // ------------------------------------------------------------------ why a call ends

  predicate Over(s: State, c: nat) {
    c in s.callers && (s.callers[c].Leaving? || s.callers[c].Returned?)
  }

  lemma {:induction false} OutcomeKept(s: State, es: seq<Event>, c: nat)
    requires Possible(s, es) && Over(s, c)
    ensures Over(After(s, es), c) && After(s, es).callers[c].out == s.callers[c].out
    decreases es
  {
    if es != [] {
      OutcomeKept(Next(s, es[0]), es[1..], c);
    }
  }

  /** A call ends as it does for a reason: a message taken, its parameters not encoded, a
      failed send, its own cancellation, or the end of the reader. */
  lemma {:induction false} EndsForReason(s: State, es: seq<Event>, c: nat)
    requires Possible(s, es) && !Over(s, c) && Over(After(s, es), c)
    ensures match After(s, es).callers[c].out
      case Got(_) => Take(c) in es
      case MarshalFailed => FailMarshal(c) in es
      case SendFailed => Send(c, false) in es
      case Cancelled => Cancel(c) in es
      case Closed => SeeClosed(c) in es && After(s, es).reader.Exited?
    decreases es
  {
    var next := Next(s, es[0]);
    assert forall e | e in es[1..] :: e in es;
    assert es[0] in es;
    if Over(next, c) {
      OutcomeKept(next, es[1..], c);
      StaysExited(next, es[1..]);
    } else {
      EndsForReason(next, es[1..], c);
    }
  }

  lemma {:induction false} StaysExited(s: State, es: seq<Event>)
    requires Possible(s, es)
    ensures s.reader.Exited? ==> After(s, es).reader.Exited?
    decreases es
  {
    if es != [] {
      StaysExited(Next(s, es[0]), es[1..]);
    }
  }

  // ---------------------------------------------------------------- pending and numbers

  lemma ReachableInv(es: seq<Event>)
    requires Possible(START, es)
    ensures Inv(After(START, es))
  {
    FromStart(es);
  }

  /** Two calls never share a number, and pending holds exactly the registered calls that
      have not returned. */
  lemma PendingExactly(es: seq<Event>, c: nat, d: nat)
    requires Possible(START, es) && c in After(START, es).callers && d in After(START, es).callers
    ensures var s := After(START, es);
      && (c != d ==> s.callers[c].id != s.callers[d].id)
      && (s.callers[c].id in s.pending <==> InPending(s.callers[c]))
      && (forall id | id in s.pending :: exists c :: c in s.callers && s.callers[c].id == id && InPending(s.callers[c]))
  {
    ReachableInv(es);
    var s := After(START, es);
    forall id | id in s.pending ensures exists c :: c in s.callers && s.callers[c].id == id && InPending(s.callers[c]) {
      assert Owned(s, id);
      var k :| k in s.callers && s.callers[k].id == id;
    }
  }

  /** When every call has returned nothing is left in pending. */
  lemma NothingLeaks(es: seq<Event>)
    requires Possible(START, es)
    requires forall c | c in After(START, es).callers :: After(START, es).callers[c].Returned?
    ensures After(START, es).pending == {}
  {
    ReachableInv(es);
    var s := After(START, es);
    forall id ensures id !in s.pending {
      if Owned(s, id) {
        var c :| c in s.callers && s.callers[c].id == id;
        assert s.callers[c].Returned?;
      }
    }
  }

  // ------------------------------------------------------------------------- progress

  /** The steps of the read loop and of the handler inside it. */
  predicate OfReader(e: Event) {
    e.Read? || e.Deliver? || e.HandlerBegin? || e.HandlerReturn? || e.Exit?
  }

  /** The handler is inside a call on this connection that has not returned. */
  predicate HandlerCalling(s: State) {
    s.reader.Handling? && !HandlerFree(s)
  }

  /** Until it exits the reader has a step, whatever the callers do, if and only if it is
      not inside a handler whose own call has not returned. */
  lemma ReaderBlocksExactly(es: seq<Event>)
    requires Possible(START, es) && !After(START, es).reader.Exited?
    ensures (exists e :: OfReader(e) && Legal(After(START, es), e)) <==> !HandlerCalling(After(START, es))
  {
    ReachableInv(es);
    var s := After(START, es);
    if !HandlerCalling(s) {
      var e := if s.reader.Holding? then Deliver else if s.reader.Handling? then HandlerReturn else Exit;
      assert OfReader(e) && Legal(s, e);
    }
  }

  /** The handler waits for a response that only the reader it blocks could bring. */
  predicate Stuck(s: State, c: nat) {
    && s.reader == Handling(Some(c))
    && c in s.callers && s.callers[c].Waiting?
    && s.callers[c].id in s.buffers && s.buffers[s.callers[c].id].None?
  }

  /** Then nothing but the cancellation of that call ends it: in every run without it the
      handler goes on waiting and no other call is answered. */
  lemma {:induction false} StuckStays(s: State, es: seq<Event>, c: nat)
    requires Inv(s) && Stuck(s, c) && Possible(s, es) && Cancel(c) !in es
    ensures Stuck(After(s, es), c) && Handled(s, es) == []
    ensures forall id | id in s.buffers && s.buffers[id].None? ::
      id in After(s, es).buffers && After(s, es).buffers[id].None?
    decreases es
  {
    if es != [] {
      var e := es[0];
      assert e in es;
      StuckStep(s, e, c);
      StepKeepsInv(s, e);
      assert forall x | x in es[1..] :: x in es;
      StuckStays(Next(s, e), es[1..], c);
    }
  }

  lemma StuckStep(s: State, e: Event, c: nat)
    requires Inv(s) && Stuck(s, c) && Legal(s, e) && e != Cancel(c)
    ensures Stuck(Next(s, e), c) && HandledBy(s, e) == []
    ensures forall id | id in s.buffers && s.buffers[id].None? :: id in Next(s, e).buffers && Next(s, e).buffers[id].None?
  {
  }

  lemma OneMore(s: State, e: Event, es: seq<Event>)
    requires Legal(s, e) && Possible(Next(s, e), es)
    ensures Possible(s, [e] + es) && After(s, [e] + es) == After(Next(s, e), es)
  {
    Sequences.Cons(e, es);
  }

  /** The cancellation frees the reader. */
  lemma CancelFrees(s: State, c: nat)
    requires Stuck(s, c)
    ensures var es := [Cancel(c)] + ([Unregister(c)] + ([HandlerReturn] + []));
      Possible(s, es) && After(s, es).reader.Reading?
  {
    var a := Next(s, Cancel(c));
    var b := Next(a, Unregister(c));
    OneMore(b, HandlerReturn, []);
    OneMore(a, Unregister(c), [HandlerReturn] + []);
    OneMore(s, Cancel(c), [Unregister(c)] + ([HandlerReturn] + []));
  }

  /** While the handler is inside a call the channel of that call stays empty. */
  predicate HandlerUnanswered(s: State) {
    s.reader.Handling? && s.reader.call.Some? ==>
      var c := s.reader.call.value;
      && c in s.callers
      && (s.callers[c].Sending? || s.callers[c].Waiting? ==>
            s.callers[c].id in s.buffers && s.buffers[s.callers[c].id].None?)
  }

  lemma {:induction false} RunKeepsUnanswered(s: State, es: seq<Event>)
    requires Inv(s) && HandlerUnanswered(s) && Possible(s, es)
    ensures HandlerUnanswered(After(s, es))
    decreases es
  {
    if es != [] {
      StepKeepsInv(s, es[0]);
      RunKeepsUnanswered(Next(s, es[0]), es[1..]);
    }
  }

  /** A continuation without the cancellation of c that brings the reader back to its lines. */
  predicate BringsBack(s: State, es: seq<Event>, c: nat) {
    Possible(s, es) && Cancel(c) !in es && After(s, es).reader.Reading?
  }

  /** Whether one exists is settled by where the handler's call is: before it waits it can
      still fail to be sent, and once it waits nothing else ends it. */
  lemma BackExactly(es: seq<Event>, c: nat)
    requires Possible(START, es) && After(START, es).reader == Handling(Some(c))
    ensures var s := After(START, es);
      c in s.callers && ((exists more :: BringsBack(s, more, c)) <==> !s.callers[c].Waiting?)
  {
    ReachableInv(es);
    RunKeepsUnanswered(START, es);
    var s := After(START, es);
    if s.callers[c].Waiting? {
      assert Stuck(s, c);
      forall more | BringsBack(s, more, c) ensures false {
        StuckStays(s, more, c);
      }
    } else {
      var more := WayBack(s, c);
      assert BringsBack(s, more, c);
    }
  }

  lemma {:induction false} WayBack(s: State, c: nat) returns (es: seq<Event>)
    requires s.reader == Handling(Some(c)) && c in s.callers && !s.callers[c].Waiting?
    ensures BringsBack(s, es, c)
    decreases Rank(s.callers[c])
  {
    var e := match s.callers[c]
      case Numbered(_) => FailMarshal(c)
      case Sending(_) => Send(c, false)
      case Leaving(_, _) => Unregister(c)
      case _ => HandlerReturn;
    var more: seq<Event> := [];
    if !e.HandlerReturn? {
      more := WayBack(Next(s, e), c);
    }
    es := [e] + more;
    OneMore(s, e, more);
  }

  /** Such a state is reached when the handler calls back over its own connection. */
  lemma StuckReachable(note: Message, c: nat) returns (es: seq<Event>)
    requires note.methodName != ""
    ensures Possible(START, es) && Stuck(After(START, es), c)
  {
    var a := Next(START, Read(Decoded(note), true));
    var b := Next(a, HandlerBegin(c));
    var d := Next(b, Register(c));
    es := [Send(c, true)] + [];
    OneMore(d, Send(c, true), []);
    OneMore(b, Register(c), es);
    es := [Register(c)] + es;
    OneMore(a, HandlerBegin(c), es);
    es := [HandlerBegin(c)] + es;
    OneMore(START, Read(Decoded(note), true), es);
    es := [Read(Decoded(note), true)] + es;
  }

  /** Who takes the step, if a caller does. */
  function Caller(e: Event): Option<nat> {
    match e
    case Begin(c) => Some(c)
    case HandlerBegin(c) => Some(c)
    case FailMarshal(c) => Some(c)
    case Register(c) => Some(c)
    case Send(c, _) => Some(c)
    case Take(c) => Some(c)
    case Cancel(c) => Some(c)
    case SeeClosed(c) => Some(c)
    case Unregister(c) => Some(c)
    case _ => None
  }

  function Own(es: seq<Event>, c: nat): nat {
    if es == [] then 0 else (if Caller(es[0]) == Some(c) then 1 else 0) + Own(es[1..], c)
  }

  /** The steps a call has left at most. */
  function Rank(p: Phase): nat {
    match p
    case Numbered(_) => 4
    case Sending(_) => 3
    case Waiting(_) => 2
    case Leaving(_, _) => 1
    case Returned(_, _) => 0
  }

  /** Each step of a call brings its return nearer and no other step moves it: in any run
      a call takes at most as many steps as its rank. */
  lemma {:induction false} OwnStepsBounded(s: State, es: seq<Event>, c: nat)
    requires Possible(s, es) && c in s.callers
    ensures c in After(s, es).callers
    ensures Own(es, c) + Rank(After(s, es).callers[c]) <= Rank(s.callers[c])
    decreases es
  {
    if es != [] {
      OwnStepsBounded(Next(s, es[0]), es[1..], c);
    }
  }

  /** The step a call can take once the reader has exited. */
  function Way(s: State, c: nat): Event
    requires c in s.callers && !s.callers[c].Returned?
  {
    match s.callers[c]
    case Numbered(_) => Register(c)
    case Sending(_) => Send(c, true)
    case Waiting(_) => SeeClosed(c)
    case _ => Unregister(c)
  }

  /** After the reader has exited, every call that has not returned has a step of its own,
      needs nobody else for it, and returns by such steps alone. */
  lemma {:induction false} CanReturn(s: State, c: nat) returns (es: seq<Event>)
    requires s.reader.Exited? && c in s.callers
    ensures Possible(s, es) && c in After(s, es).callers && After(s, es).callers[c].Returned?
    ensures Own(es, c) == |es| <= 4
    ensures !s.callers[c].Returned? ==> es != [] && es[0] == Way(s, c)
    decreases Rank(s.callers[c])
  {
    if s.callers[c].Returned? {
      es := [];
    } else {
      var e := Way(s, c);
      var more := CanReturn(Next(s, e), c);
      es := [e] + more;
      assert es[1..] == more;
      OwnStepsBounded(s, es, c);
    }
  }
}
