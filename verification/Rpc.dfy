/** Request/response correlation of mcp/conn.go: callers, one reader, and the steps they
    take. A step is what happens between two points where another goroutine can run. */
module Rpc {
  import opened Options

  /** A decoded message; id 0 and method name "" stand for absent members. */
  datatype Message = Message(id: int, methodName: string, error: Option<string>, result: string)

  datatype Line = Blank | NotJson | Decoded(msg: Message)

  /** How a call returns. */
  datatype Out = Got(msg: Message) | MarshalFailed | SendFailed | Cancelled | Closed

  /** Where a call is: it has its number; it is in pending and sends; it waits; its result
      is known but it is still in pending; it has returned. */
  datatype Phase =
    | Numbered(id: int)
    | Sending(id: int)
    | Waiting(id: int)
    | Leaving(id: int, out: Out)
    | Returned(id: int, out: Out)

  /** Where the read loop is: at the next line; with a response it has found the channel
      for; inside the notification handler, which may itself be making a call; or gone. */
  datatype Reader = Reading | Holding(id: int, msg: Message) | Handling(call: Option<nat>) | Exited

  /** buffers has the channel of every call that ever was in pending: empty or one message. */
  datatype State = State(nextID: int, pending: set<int>, buffers: map<int, Option<Message>>,
                         callers: map<nat, Phase>, reader: Reader)

  const START := State(0, {}, map[], map[], Reading)

  datatype Event =
    | Begin(c: nat)
    | FailMarshal(c: nat)
    | Register(c: nat)
    | Send(c: nat, ok: bool)
    | Take(c: nat)
    | Cancel(c: nat)
    | SeeClosed(c: nat)
    | Unregister(c: nat)
    | Read(line: Line, handler: bool)
    | Deliver
    | HandlerBegin(c: nat)
    | HandlerReturn
    | Exit

  /** The handler is running and not inside a call on this connection. */
  predicate HandlerFree(s: State) {
    s.reader.Handling? &&
    (s.reader.call.Some? ==> s.reader.call.value in s.callers && s.callers[s.reader.call.value].Returned?)
  }

  predicate Legal(s: State, e: Event) {
    match e
    case Begin(c) => c !in s.callers
    case FailMarshal(c) => c in s.callers && s.callers[c].Numbered?
    case Register(c) => c in s.callers && s.callers[c].Numbered?
    case Send(c, _) => c in s.callers && s.callers[c].Sending?
    case Take(c) => c in s.callers && s.callers[c].Waiting? && s.callers[c].id in s.buffers && s.buffers[s.callers[c].id].Some?
    case Cancel(c) => c in s.callers && s.callers[c].Waiting?
    case SeeClosed(c) => c in s.callers && s.callers[c].Waiting? && s.reader.Exited?
    case Unregister(c) => c in s.callers && s.callers[c].Leaving?
    case Read(_, _) => s.reader.Reading?
    case Deliver => s.reader.Holding? && s.reader.id in s.buffers
    case HandlerBegin(c) => HandlerFree(s) && c !in s.callers
    case HandlerReturn => HandlerFree(s)
    case Exit => s.reader.Reading?
  }

  /** A response to a call that is in pending. */
  predicate Answers(s: State, line: Line) {
    line.Decoded? && line.msg.id != 0 && line.msg.methodName == "" && line.msg.id in s.pending
  }

  /** A notification or a request of the server, which goes to the handler if one is set. */
  predicate Notifies(line: Line, handler: bool) {
    handler && line.Decoded? && line.msg.methodName != ""
  }

  function Move(s: State, c: nat, p: Phase): State {
    s.(callers := s.callers[c := p])
  }

  function Next(s: State, e: Event): State
    requires Legal(s, e)
  {
    match e
    case Begin(c) => Move(s, c, Numbered(s.nextID + 1)).(nextID := s.nextID + 1)
    case FailMarshal(c) => Move(s, c, Returned(s.callers[c].id, MarshalFailed))
    case Register(c) =>
      var id := s.callers[c].id;
      Move(s, c, Sending(id)).(pending := s.pending + {id}, buffers := s.buffers[id := None])
    case Send(c, ok) =>
      var id := s.callers[c].id;
      Move(s, c, if ok then Waiting(id) else Leaving(id, SendFailed))
    case Take(c) =>
      var id := s.callers[c].id;
      Move(s, c, Leaving(id, Got(s.buffers[id].value))).(buffers := s.buffers[id := None])
    case Cancel(c) => Move(s, c, Leaving(s.callers[c].id, Cancelled))
    case SeeClosed(c) => Move(s, c, Leaving(s.callers[c].id, Closed))
    case Unregister(c) =>
      var p := s.callers[c];
      Move(s, c, Returned(p.id, p.out)).(pending := s.pending - {p.id})
    case Read(line, handler) =>
      if Answers(s, line) then s.(reader := Holding(line.msg.id, line.msg))
      else if Notifies(line, handler) then s.(reader := Handling(None))
      else s
    case Deliver =>
      var id := s.reader.id;
      s.(reader := Reading, buffers := if s.buffers[id].None? then s.buffers[id := Some(s.reader.msg)] else s.buffers)
    case HandlerBegin(c) =>
      Move(s, c, Numbered(s.nextID + 1)).(nextID := s.nextID + 1, reader := Handling(Some(c)))
    case HandlerReturn => s.(reader := Reading)
    case Exit => s.(reader := Exited)
  }

  // --------------------------------------------------------------------- what holds

  predicate InPending(p: Phase) {
    p.Sending? || p.Waiting? || p.Leaving?
  }

  /** Numbers are given out once, from 1 on. */
  predicate Numbers(s: State) {
    && s.nextID >= 0
    && (forall c | c in s.callers :: 1 <= s.callers[c].id <= s.nextID)
    && (forall c, d | c in s.callers && d in s.callers && c != d :: s.callers[c].id != s.callers[d].id)
  }

  /** pending holds exactly the calls registered and not yet returned. */
  predicate PendingExact(s: State) {
    && (forall c | c in s.callers :: InPending(s.callers[c]) <==> s.callers[c].id in s.pending)
    && (forall id | id in s.pending :: Owned(s, id))
  }

  predicate Owned(s: State, id: int) {
    exists c :: c in s.callers && s.callers[c].id == id
  }

  /** Every registered call has its channel, and only messages with its number go there. */
  predicate Channels(s: State) {
    && (forall c | c in s.callers :: InPending(s.callers[c]) ==> s.callers[c].id in s.buffers)
    && (forall c | c in s.callers :: s.callers[c].Numbered? ==> s.callers[c].id !in s.buffers)
    && (forall id | id in s.buffers :: 1 <= id <= s.nextID)
    && (forall id | id in s.buffers :: s.buffers[id].Some? ==> s.buffers[id].value.id == id)
    && (s.reader.Holding? ==> s.reader.id in s.buffers && s.reader.msg.id == s.reader.id)
  }

  predicate OwnMessages(s: State) {
    forall c | c in s.callers :: s.callers[c].Leaving? || s.callers[c].Returned? ==>
      s.callers[c].out.Got? ==> s.callers[c].out.msg.id == s.callers[c].id
  }

  predicate Inv(s: State) {
    Numbers(s) && PendingExact(s) && Channels(s) && OwnMessages(s)
  }

  lemma StepKeepsNumbers(s: State, e: Event)
    requires Legal(s, e) && Numbers(s)
    ensures Numbers(Next(s, e))
  {
    var next := Next(s, e);
    forall c, d | c in next.callers && d in next.callers && c != d ensures next.callers[c].id != next.callers[d].id {
      StepKeepsDistinct(s, e, c, d);
    }
  }

  lemma StepKeepsDistinct(s: State, e: Event, c: nat, d: nat)
    requires Legal(s, e) && Numbers(s) && c in Next(s, e).callers && d in Next(s, e).callers && c != d
    ensures Next(s, e).callers[c].id != Next(s, e).callers[d].id
  {
  }

  lemma StepKeepsPending(s: State, e: Event)
    requires Legal(s, e) && Numbers(s) && PendingExact(s) && Channels(s)
    ensures PendingExact(Next(s, e))
  {
    var next := Next(s, e);
    forall c | c in next.callers ensures InPending(next.callers[c]) <==> next.callers[c].id in next.pending {
      StepKeepsInPending(s, e, c);
    }
    forall id | id in next.pending ensures Owned(next, id) {
      StepKeepsOwned(s, e, id);
    }
  }

  lemma StepKeepsInPending(s: State, e: Event, c: nat)
    requires Legal(s, e) && Numbers(s) && PendingExact(s) && c in Next(s, e).callers
    ensures InPending(Next(s, e).callers[c]) <==> Next(s, e).callers[c].id in Next(s, e).pending
  {
    assert !Owned(s, s.nextID + 1);
  }

  lemma StepKeepsOwned(s: State, e: Event, id: int)
    requires Legal(s, e) && Numbers(s) && (id in s.pending ==> Owned(s, id)) && id in Next(s, e).pending
    ensures Owned(Next(s, e), id)
  {
    var next := Next(s, e);
    if id in s.pending {
      var c :| c in s.callers && s.callers[c].id == id;
      assert c in next.callers && next.callers[c].id == id;
    } else {
      assert next.callers[e.c].id == id;
    }
  }

  lemma StepKeepsChannels(s: State, e: Event)
    requires Legal(s, e) && Numbers(s) && PendingExact(s) && Channels(s)
    ensures Channels(Next(s, e))
  {
    var next := Next(s, e);
    forall c | c in next.callers
      ensures (InPending(next.callers[c]) ==> next.callers[c].id in next.buffers)
        && (next.callers[c].Numbered? ==> next.callers[c].id !in next.buffers)
    {
      StepKeepsChannel(s, e, c);
    }
    forall id | id in next.buffers
      ensures 1 <= id <= next.nextID && (next.buffers[id].Some? ==> next.buffers[id].value.id == id)
    {
      StepKeepsBuffer(s, e, id);
    }
  }

  lemma StepKeepsChannel(s: State, e: Event, c: nat)
    requires Legal(s, e) && Numbers(s) && Channels(s) && c in Next(s, e).callers
    ensures InPending(Next(s, e).callers[c]) ==> Next(s, e).callers[c].id in Next(s, e).buffers
    ensures Next(s, e).callers[c].Numbered? ==> Next(s, e).callers[c].id !in Next(s, e).buffers
  {
  }

  lemma StepKeepsBuffer(s: State, e: Event, id: int)
    requires Legal(s, e) && Numbers(s) && Channels(s) && id in Next(s, e).buffers
    ensures 1 <= id <= Next(s, e).nextID
    ensures Next(s, e).buffers[id].Some? ==> Next(s, e).buffers[id].value.id == id
  {
  }

  lemma StepKeepsInv(s: State, e: Event)
    requires Legal(s, e) && Inv(s)
    ensures Inv(Next(s, e))
  {
    StepKeepsNumbers(s, e);
    StepKeepsPending(s, e);
    StepKeepsChannels(s, e);
    StepKeepsOwn(s, e);
  }

  lemma StepKeepsOwn(s: State, e: Event)
    requires Legal(s, e) && Channels(s) && OwnMessages(s)
    ensures OwnMessages(Next(s, e))
  {
  }

  // ------------------------------------------------------------------- the connection

  /** A channel of capacity one. */
  class Channel {
    var buffer: Option<Message>

    constructor ()
      ensures buffer == None
    {
      buffer := None;
    }

    /** A send that gives up when the channel is full. */
    method Offer(msg: Message)
      modifies this
      ensures buffer == if old(buffer).None? then Some(msg) else old(buffer)
    {
      if buffer.None? {
        buffer := Some(msg);
      }
    }
  }

  /** conn. The ghost fields say where every goroutine is and which channels were made;
      each method is one step and is specified by Next. */
  class Conn {
    var nextID: int
    var pending: map<int, Channel>
    var done: bool
    ghost var made: map<int, Channel>
    ghost var callers: map<nat, Phase>
    ghost var reader: Reader

    ghost predicate Valid()
      reads this
    {
      && (forall id | id in pending :: id in made && pending[id] == made[id])
      && (forall i, j | i in made && j in made && i != j :: made[i] != made[j])
      && (done <==> reader.Exited?)
    }

    ghost function Abs(): State
      reads this, made.Values
    {
      State(nextID, pending.Keys, map id | id in made :: made[id].buffer, callers, reader)
    }

    constructor ()
      ensures Valid() && Abs() == START && made == map[]
    {
      nextID, pending, done := 0, map[], false;
      made, callers, reader := map[], map[], Reading;
    }

    /** nextID.Add(1), for a call made by the notification handler or by anybody else. */
    method TakeNumber(ghost c: nat, ghost inHandler: bool) returns (id: int)
      requires Valid() && Legal(Abs(), if inHandler then HandlerBegin(c) else Begin(c))
      modifies this
      ensures Valid() && made == old(made)
      ensures Abs() == Next(old(Abs()), if inHandler then HandlerBegin(c) else Begin(c)) && callers[c] == Numbered(id)
    {
      nextID := nextID + 1;
      id := nextID;
      callers := callers[c := Numbered(id)];
      reader := if inHandler then Handling(Some(c)) else reader;
    }

    /** A call whose parameters cannot be encoded returns before it is registered. */
    method GiveUp(ghost c: nat)
      requires Valid() && Legal(Abs(), FailMarshal(c))
      modifies this
      ensures Valid() && made == old(made)
      ensures Abs() == Next(old(Abs()), FailMarshal(c))
    {
      callers := callers[c := Returned(callers[c].id, MarshalFailed)];
    }

    method Enter(ghost c: nat, id: int) returns (ch: Channel)
      requires Valid() && c in callers && callers[c] == Numbered(id)
      modifies this
      ensures Valid() && fresh(ch) && made == old(made)[id := ch]
      ensures Abs() == Next(old(Abs()), Register(c))
    {
      ghost var before := Abs();
      ch := new Channel();
      pending := pending[id := ch];
      made := made[id := ch];
      callers := callers[c := Sending(id)];
      assert Abs().buffers == before.buffers[id := None];
    }

    /** The send has ended. */
    method Sent(ghost c: nat, ok: bool)
      requires Valid() && Legal(Abs(), Send(c, ok))
      modifies this
      ensures Valid() && made == old(made)
      ensures Abs() == Next(old(Abs()), Send(c, ok))
    {
      var id := callers[c].id;
      callers := callers[c := if ok then Waiting(id) else Leaving(id, SendFailed)];
    }

    /** The select of a call, in the branch that receives. */
    method Receive(ghost c: nat, ch: Channel) returns (msg: Message)
      requires Valid() && Legal(Abs(), Event.Take(c)) && ch == made[callers[c].id]
      modifies this, ch
      ensures Valid() && made == old(made)
      ensures Abs() == Next(old(Abs()), Event.Take(c)) && callers[c].out == Got(msg)
    {
      ghost var before := Abs();
      ghost var id := callers[c].id;
      msg := ch.buffer.value;
      ch.buffer := None;
      callers := callers[c := Leaving(id, Got(msg))];
      assert forall i | i in made && i != id :: made[i].buffer == before.buffers[i];
      assert Abs().buffers == before.buffers[id := None];
    }

    /** The select of a call, in one of its other branches; closed says which. */
    method StopWaiting(ghost c: nat, closed: bool)
      requires Valid() && Legal(Abs(), if closed then SeeClosed(c) else Cancel(c))
      modifies this
      ensures Valid() && made == old(made)
      ensures Abs() == Next(old(Abs()), if closed then SeeClosed(c) else Cancel(c))
    {
      callers := callers[c := Leaving(callers[c].id, if closed then Closed else Cancelled)];
    }

    /** The deferred delete. */
    method Leave(ghost c: nat, id: int)
      requires Valid() && Legal(Abs(), Unregister(c)) && callers[c].id == id
      modifies this
      ensures Valid() && made == old(made)
      ensures Abs() == Next(old(Abs()), Unregister(c))
    {
      pending := pending - {id};
      callers := callers[c := Returned(id, callers[c].out)];
    }

    /** One line read; the channel is looked up under the lock and used after it. handler
        says whether onNotification is set, notify whether it is now called. */
    method ReadLine(line: Line, handler: bool) returns (found: Option<(Channel, Message)>, notify: bool)
      requires Valid() && Legal(Abs(), Read(line, handler))
      modifies this
      ensures Valid() && made == old(made)
      ensures Abs() == Next(old(Abs()), Read(line, handler))
      ensures found.Some? <==> Answers(old(Abs()), line)
      ensures found.Some? ==> reader.Holding? && reader.id in made && found.value == (made[reader.id], reader.msg)
      ensures notify <==> Notifies(line, handler)
    {
      found, notify := None, false;
      if line.Decoded? {
        var msg := line.msg;
        if msg.id != 0 && msg.methodName == "" {
          if msg.id in pending {
            found := Some((pending[msg.id], msg));
            reader := Holding(msg.id, msg);
          }
        } else if msg.methodName != "" {
          if handler {
            notify := true;
            reader := Handling(None);
          }
        }
      }
    }

    /** The handler has returned to the read loop. */
    method Resume()
      requires Valid() && Legal(Abs(), HandlerReturn)
      modifies this
      ensures Valid() && made == old(made)
      ensures Abs() == Next(old(Abs()), HandlerReturn)
    {
      reader := Reading;
    }

    method Hand(ch: Channel, msg: Message)
      requires Valid() && Legal(Abs(), Deliver) && ch == made[reader.id] && msg == reader.msg
      modifies this, ch
      ensures Valid() && made == old(made)
      ensures Abs() == Next(old(Abs()), Deliver)
    {
      ghost var before := Abs();
      ghost var id := reader.id;
      ch.Offer(msg);
      reader := Reading;
      assert forall i | i in made && i != id :: made[i].buffer == before.buffers[i];
      assert Abs().buffers == Next(before, Deliver).buffers;
    }

    /** The read loop ends. */
    method Close()
      requires Valid() && Legal(Abs(), Exit)
      modifies this
      ensures Valid() && made == old(made)
      ensures Abs() == Next(old(Abs()), Exit)
    {
      done := true;
      reader := Exited;
    }
  }
}
