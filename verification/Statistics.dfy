/** The usage counters of stats.go. Each is atomic by itself, but a record adds to them
    one after the other. */
module Statistics {
  datatype Counter = Total | Input | Output | Tokens | Created | Read | Succeeded | Failed

  datatype Counters = Counters(total: int, input: int, output: int, tokens: int, created: int, read: int, succeeded: int, failed: int) {
    function Get(c: Counter): int {
      match c
      case Total => total
      case Input => input
      case Output => output
      case Tokens => tokens
      case Created => created
      case Read => read
      case Succeeded => succeeded
      case Failed => failed
    }

    function Plus(a: Add): Counters {
      match a.counter
      case Total => this.(total := total + a.amount)
      case Input => this.(input := input + a.amount)
      case Output => this.(output := output + a.amount)
      case Tokens => this.(tokens := tokens + a.amount)
      case Created => this.(created := created + a.amount)
      case Read => this.(read := read + a.amount)
      case Succeeded => this.(succeeded := succeeded + a.amount)
      case Failed => this.(failed := failed + a.amount)
    }
  }

  const ZERO := Counters(0, 0, 0, 0, 0, 0, 0, 0)

  /** One atomic addition. */
  datatype Add = Add(counter: Counter, amount: int)

  datatype Record = Record(success: bool, input: int, output: int, created: int, read: int)

  /** The additions of RecordRequest, in order. */
  function Adds(r: Record): seq<Add> {
    [Add(Total, 1), Add(Input, r.input), Add(Output, r.output), Add(Tokens, r.input + r.output),
     Add(Created, r.created), Add(Read, r.read), Add(if r.success then Succeeded else Failed, 1)]
  }

  /** The counters after one whole record. */
  function Recorded(s: Counters, r: Record): Counters {
    Counters(s.total + 1, s.input + r.input, s.output + r.output, s.tokens + r.input + r.output,
             s.created + r.created, s.read + r.read,
             s.succeeded + (if r.success then 1 else 0), s.failed + if r.success then 0 else 1)
  }

  class Stats {
    var total: int
    var input: int
    var output: int
    var tokens: int
    var created: int
    var read: int
    var succeeded: int
    var failed: int

    function Value(): Counters
      reads this
    {
      Counters(total, input, output, tokens, created, read, succeeded, failed)
    }

    constructor ()
      ensures Value() == ZERO
    {
      total, input, output, tokens, created, read, succeeded, failed := 0, 0, 0, 0, 0, 0, 0, 0;
    }

    /** RecordRequest with nobody else recording. */
    method RecordRequest(r: Record)
      modifies this
      ensures Value() == Recorded(old(Value()), r)
    {
      total := total + 1;
      input := input + r.input;
      output := output + r.output;
      tokens := tokens + (r.input + r.output);
      created := created + r.created;
      read := read + r.read;
      if r.success {
        succeeded := succeeded + 1;
      } else {
        failed := failed + 1;
      }
    }
  }

  // ------------------------------------------------------------ concurrent records

  /** What the additions give a counter. */
  function Share(adds: seq<Add>, c: Counter): int {
    if adds == [] then 0 else (if adds[0].counter == c then adds[0].amount else 0) + Share(adds[1..], c)
  }

  lemma RecordShare(r: Record, c: Counter)
    ensures Share(Adds(r), c) ==
      match c
      case Total => 1
      case Input => r.input
      case Output => r.output
      case Tokens => r.input + r.output
      case Created => r.created
      case Read => r.read
      case Succeeded => if r.success then 1 else 0
      case Failed => if r.success then 0 else 1
  {
    var a := Adds(r);
    Later(a, 0, c);
    Later(a, 1, c);
    Later(a, 2, c);
    Later(a, 3, c);
    Later(a, 4, c);
    Later(a, 5, c);
    Later(a, 6, c);
    assert a[0..] == a && a[7..] == [];
  }

  lemma Later(adds: seq<Add>, k: nat, c: Counter)
    requires k < |adds|
    ensures Share(adds[k..], c) == (if adds[k].counter == c then adds[k].amount else 0) + Share(adds[k + 1..], c)
  {
    assert adds[k..][1..] == adds[k + 1..];
  }

  /** open has, for every record begun, the additions it has still to make. */
  datatype Sys = Sys(counts: Counters, open: seq<seq<Add>>)

  datatype Event = Begin(r: Record) | Step(k: nat)

  predicate Legal(s: Sys, e: Event) {
    e.Step? ==> e.k < |s.open| && s.open[e.k] != []
  }

  function Next(s: Sys, e: Event): Sys
    requires Legal(s, e)
  {
    match e
    case Begin(r) => s.(open := s.open + [Adds(r)])
    case Step(k) => Sys(s.counts.Plus(s.open[k][0]), s.open[k := s.open[k][1..]])
  }

  predicate Possible(s: Sys, es: seq<Event>)
    decreases es
  {
    es == [] || (Legal(s, es[0]) && Possible(Next(s, es[0]), es[1..]))
  }

  function Run(s: Sys, es: seq<Event>): Sys
    requires Possible(s, es)
    decreases es
  {
    if es == [] then s else Run(Next(s, es[0]), es[1..])
  }

  function Begun(es: seq<Event>): seq<Record> {
    if es == [] then [] else (if es[0].Begin? then [es[0].r] else []) + Begun(es[1..])
  }

  /** What the records, all together, add to a counter. */
  function Due(rs: seq<Record>, c: Counter): int {
    if rs == [] then 0 else Share(Adds(rs[0]), c) + Due(rs[1..], c)
  }

  function Owed(open: seq<seq<Add>>, c: Counter): int {
    if open == [] then 0 else Share(open[0], c) + Owed(open[1..], c)
  }

  lemma {:induction false} OwedAppend(open: seq<seq<Add>>, adds: seq<Add>, c: Counter)
    ensures Owed(open + [adds], c) == Owed(open, c) + Share(adds, c)
  {
    if open == [] {
      assert [adds][1..] == [];
    } else {
      var all := open + [adds];
      assert all[0] == open[0] && all[1..] == open[1..] + [adds];
      OwedAppend(open[1..], adds, c);
    }
  }

  lemma {:induction false} OwedUpdate(open: seq<seq<Add>>, k: nat, adds: seq<Add>, c: Counter)
    requires k < |open|
    ensures Owed(open[k := adds], c) == Owed(open, c) - Share(open[k], c) + Share(adds, c)
  {
    var all := open[k := adds];
    if k == 0 {
      assert all[1..] == open[1..];
    } else {
      assert all[1..] == open[1..][k - 1 := adds];
      OwedUpdate(open[1..], k - 1, adds, c);
    }
  }

  lemma StepConserves(s: Sys, e: Event, c: Counter)
    requires Legal(s, e)
    ensures var t := Next(s, e);
      t.counts.Get(c) + Owed(t.open, c) ==
        s.counts.Get(c) + Owed(s.open, c) + if e.Begin? then Share(Adds(e.r), c) else 0
  {
    match e {
      case Begin(r) => OwedAppend(s.open, Adds(r), c);
      case Step(k) => OwedUpdate(s.open, k, s.open[k][1..], c);
    }
  }

  /** Nothing is lost or added twice: at every moment of every interleaving a counter and
      what is still owed to it make up what the records begun so far add. */
  lemma {:induction false} Conserved(s: Sys, es: seq<Event>, c: Counter)
    requires Possible(s, es)
    ensures var t := Run(s, es);
      t.counts.Get(c) + Owed(t.open, c) == s.counts.Get(c) + Owed(s.open, c) + Due(Begun(es), c)
    decreases es
  {
    if es != [] {
      StepConserves(s, es[0], c);
      Conserved(Next(s, es[0]), es[1..], c);
      BegunFirst(es, c);
    }
  }

  lemma BegunFirst(es: seq<Event>, c: Counter)
    requires es != []
    ensures Due(Begun(es), c) == (if es[0].Begin? then Share(Adds(es[0].r), c) else 0) + Due(Begun(es[1..]), c)
  {
    if es[0].Begin? {
      assert Begun(es)[1..] == Begun(es[1..]);
    } else {
      assert Begun(es) == Begun(es[1..]);
    }
  }

  /** A record whose additions follow each other. */
  function Alone(r: Record): seq<Event> {
    [Begin(r)] + Steps(|Adds(r)|)
  }

  function Steps(n: nat): seq<Event> {
    if n == 0 then [] else [Step(0)] + Steps(n - 1)
  }

  lemma {:induction false} StepsFinish(s: Sys, adds: seq<Add>)
    requires s.open == [adds]
    ensures Possible(s, Steps(|adds|)) && Run(s, Steps(|adds|)).open == [[]] && Begun(Steps(|adds|)) == []
    decreases |adds|
  {
    if adds != [] {
      assert Steps(|adds|)[1..] == Steps(|adds| - 1);
      StepsFinish(Next(s, Step(0)), adds[1..]);
    }
  }

  /** Made alone, the additions of a record give what the method gives. */
  lemma RecordAlone(s: Counters, r: Record)
    ensures Possible(Sys(s, []), Alone(r))
    ensures Run(Sys(s, []), Alone(r)) == Sys(Recorded(s, r), [[]])
  {
    var from := Next(Sys(s, []), Begin(r));
    assert from == Sys(s, [Adds(r)]) && Alone(r)[1..] == Steps(|Adds(r)|);
    StepsFinish(from, Adds(r));
    var t := Run(Sys(s, []), Alone(r));
    forall c: Counter ensures t.counts.Get(c) == s.Get(c) + Share(Adds(r), c) {
      Conserved(Sys(s, []), Alone(r), c);
      NothingOwed(t.open, c);
      assert Begun(Alone(r)) == [r];
      DueOne(r, c);
    }
    Gained(s, t.counts, r);
  }

  lemma DueOne(r: Record, c: Counter)
    ensures Due([r], c) == Share(Adds(r), c)
  {
    assert [r][1..] == [];
  }

  lemma Gained(s: Counters, t: Counters, r: Record)
    requires forall c: Counter :: t.Get(c) == s.Get(c) + Share(Adds(r), c)
    ensures t == Recorded(s, r)
  {
    RecordShare(r, Total);
    RecordShare(r, Input);
    RecordShare(r, Output);
    RecordShare(r, Tokens);
    RecordShare(r, Created);
    RecordShare(r, Read);
    RecordShare(r, Succeeded);
    RecordShare(r, Failed);
    assert t.Get(Total) == t.total && t.Get(Input) == t.input && t.Get(Output) == t.output && t.Get(Tokens) == t.tokens;
    assert t.Get(Created) == t.created && t.Get(Read) == t.read && t.Get(Succeeded) == t.succeeded && t.Get(Failed) == t.failed;
  }

  lemma {:induction false} NothingOwed(open: seq<seq<Add>>, c: Counter)
    requires forall k | 0 <= k < |open| :: open[k] == []
    ensures Owed(open, c) == 0
  {
    if open != [] {
      NothingOwed(open[1..], c);
    }
  }

  lemma {:induction false} DueTogether(rs: seq<Record>)
    ensures Due(rs, Total) == |rs| == Due(rs, Succeeded) + Due(rs, Failed)
    ensures Due(rs, Tokens) == Due(rs, Input) + Due(rs, Output)
  {
    if rs != [] {
      forall c: Counter ensures Due(rs, c) == Share(Adds(rs[0]), c) + Due(rs[1..], c) {
      }
      RecordShare(rs[0], Total);
      RecordShare(rs[0], Succeeded);
      RecordShare(rs[0], Failed);
      RecordShare(rs[0], Tokens);
      RecordShare(rs[0], Input);
      RecordShare(rs[0], Output);
      DueTogether(rs[1..]);
    }
  }

  /** When no record is under way the counters are what the records make together, however
      their additions were interleaved; in particular total equals succeeded plus failed. */
  lemma IdleTotals(es: seq<Event>)
    requires Possible(Sys(ZERO, []), es)
    requires var t := Run(Sys(ZERO, []), es); forall k | 0 <= k < |t.open| :: t.open[k] == []
    ensures var n := Run(Sys(ZERO, []), es).counts;
      && (forall c: Counter :: n.Get(c) == Due(Begun(es), c))
      && n.total == |Begun(es)| == n.succeeded + n.failed && n.tokens == n.input + n.output
  {
    var t := Run(Sys(ZERO, []), es);
    forall c: Counter ensures t.counts.Get(c) == Due(Begun(es), c) {
      Conserved(Sys(ZERO, []), es, c);
      NothingOwed(t.open, c);
    }
    DueTogether(Begun(es));
    assert t.counts.Get(Total) == t.counts.total && t.counts.Get(Tokens) == t.counts.tokens;
    assert t.counts.Get(Succeeded) == t.counts.succeeded && t.counts.Get(Failed) == t.counts.failed;
    assert t.counts.Get(Input) == t.counts.input && t.counts.Get(Output) == t.counts.output;
  }

  /** The equation is only for such moments: between the first and the last addition of a
      record it fails. */
  lemma MidwayDiffers(r: Record)
    ensures var es := [Begin(r), Step(0)];
      Possible(Sys(ZERO, []), es)
      && var n := Run(Sys(ZERO, []), es).counts; n.total == 1 && n.succeeded + n.failed == 0
  {
    var es := [Begin(r), Step(0)];
    assert es[1..] == [Step(0)] && es[1..][1..] == [];
    var s := Next(Sys(ZERO, []), Begin(r));
    assert s.open == [Adds(r)] && Possible(s, [Step(0)]);
    assert Run(s, [Step(0)]) == Next(s, Step(0));
  }
}
