/** The request policy applied to a request in memory, object by object. */
module PolicyInPlace {
  import opened Options
  import opened Messages
  import opened Requests
  import opened Trees
  import opened Settings
  import opened Policy
  import Text
  import Billing
  import CacheKey

  /** The text kept at l. */
  function TextAt(l: Loc): string
    reads match l case Slot(a, _) => {a as object} case Target(c) => {c}
  {
    match l
    case Slot(a, k) => if k < a.Length && a[k].Text? then a[k].text else ""
    case Target(c) => c.text
  }

  /** Writes the text of one block: held by value it is stored back into the slice, held by
      pointer it is changed at the target. No other text changes. */
  method WriteText(content: array<Block>, j: nat, text: string, ghost locs: set<Loc>)
    requires j < content.Length && PlaceOf(content, j).At?
    modifies content, CellOf(content[j])
    ensures forall k | 0 <= k < content.Length :: PlaceOf(content, k) == old(PlaceOf(content, k))
    ensures forall l | l in locs :: TextAt(l) == if PlaceOf(content, j) == At(l) then text else old(TextAt(l))
    ensures TextAt(PlaceOf(content, j).loc) == text
  {
    if content[j].Text? {
      content[j] := Text(text);
    } else {
      content[j].cell.text := text;
    }
  }

  // ------------------------------------------------------- messages as texts in places

  /** A block, given the texts. */
  function Seen(p: Place, texts: map<Loc, string>): BlockV {
    match p
    case Nil => TextPtrV(None)
    case Sized(n) => MediaV(n)
    case Held(o) => OtherV(o)
    case At(Slot(a, k)) => TextV(if p.loc in texts then texts[p.loc] else "")
    case At(Target(c)) => TextPtrV(Some(if p.loc in texts then texts[p.loc] else ""))
  }

  /** Where the first n blocks of a message keep their texts. */
  function Locs(ps: seq<Place>, n: nat): set<Loc>
    requires n <= |ps|
  {
    set k | 0 <= k < n && ps[k].At? :: ps[k].loc
  }

  ghost function AllLocs(shape: Shape): set<Loc> {
    set i, k | 0 <= i < |shape| && 0 <= k < |shape[i]| && shape[i][k].At? :: shape[i][k].loc
  }

  ghost function TextsOf(locs: set<Loc>): map<Loc, string>
    reads set l | l in locs :: match l case Slot(a, _) => a as object case Target(c) => c
  {
    map l | l in locs :: TextAt(l)
  }

  lemma BlockSeen(content: array<Block>, k: nat, locs: set<Loc>)
    requires k < content.Length
    requires PlaceOf(content, k).At? ==> PlaceOf(content, k).loc in locs
    ensures BlockOf(content[k]) == Seen(PlaceOf(content, k), TextsOf(locs))
  {
  }

  function SeenAll(ps: seq<Place>, texts: map<Loc, string>): seq<BlockV> {
    seq(|ps|, k requires 0 <= k < |ps| => Seen(ps[k], texts))
  }

  /** A message but for its content. */
  ghost function RestOf(m: Message): MessageV
    reads m.toolCalls
  {
    MessageV(m.role, [], if m.toolCalls == null then [] else m.toolCalls[..], m.toolCallID, m.name)
  }

  lemma MessageSeen(m: Message, locs: set<Loc>)
    requires Locs(PlacesOf(m), |PlacesOf(m)|) <= locs
    ensures MessageOf(m) == RestOf(m).(content := SeenAll(PlacesOf(m), TextsOf(locs)))
  {
    var ps := PlacesOf(m);
    forall k | 0 <= k < |ps| ensures MessageOf(m).content[k] == Seen(ps[k], TextsOf(locs)) {
      assert ps[k].At? ==> ps[k].loc in Locs(ps, |ps|);
      BlockSeen(m.content, k, locs);
    }
    assert |MessageOf(m).content| == |ps|;
    assert MessageOf(m).content == SeenAll(ps, TextsOf(locs));
  }

  ghost function RestsOf(ms: seq<Message>, cells: set<object>): (r: seq<MessageV>)
    requires Within(ms, cells)
    reads cells
    ensures |r| == |ms| && forall k | 0 <= k < |ms| :: r[k] == RestOf(ms[k])
  {
    seq(|ms|, k requires 0 <= k < |ms| && Within(ms, cells) reads cells => RestOf(ms[k]))
  }

  /** Messages, given where their texts are kept, the texts, and what else they hold. */
  function View(shape: Shape, texts: map<Loc, string>, rests: seq<MessageV>): (r: seq<MessageV>)
    requires |shape| == |rests|
    ensures |r| == |rests| && forall k | 0 <= k < |r| :: r[k] == rests[k].(content := SeenAll(shape[k], texts))
  {
    seq(|rests|, k requires 0 <= k < |rests| => rests[k].(content := SeenAll(shape[k], texts)))
  }

  ghost function Texts(ms: seq<Message>, cells: set<object>): map<Loc, string>
    requires Within(ms, cells)
    reads cells
  {
    LocsWithin(ms, cells);
    TextsOf(AllLocs(ShapeOf(ms, cells)))
  }

  lemma LocsWithin(ms: seq<Message>, cells: set<object>)
    requires Within(ms, cells)
    ensures forall l | l in AllLocs(ShapeOf(ms, cells)) :: match l case Slot(a, _) => a in cells case Target(c) => c in cells
  {
    forall i, k | 0 <= i < |ms| && 0 <= k < |PlacesOf(ms[i])| && PlacesOf(ms[i])[k].At?
      ensures match PlacesOf(ms[i])[k].loc case Slot(a, _) => a in cells case Target(c) => c in cells
    {
      assert CellOf(ms[i].content[k]) <= BlockCells(ms[i].content[..]) by {
        assert ms[i].content[..][k] == ms[i].content[k];
      }
    }
  }

  lemma ValuesSeen(ms: seq<Message>, cells: set<object>)
    requires Within(ms, cells)
    ensures ValuesOf(ms, cells) == View(ShapeOf(ms, cells), Texts(ms, cells), RestsOf(ms, cells))
  {
    var shape := ShapeOf(ms, cells);
    forall k | 0 <= k < |ms| ensures MessageOf(ms[k]) == RestOf(ms[k]).(content := SeenAll(shape[k], Texts(ms, cells))) {
      assert Locs(shape[k], |shape[k]|) <= AllLocs(shape);
      MessageSeen(ms[k], AllLocs(shape));
    }
  }

  /** Writing one text leaves every message with its places and all but its texts. */
  method WriteIn(items: seq<Message>, ghost cells: set<object>, i: nat, j: nat, text: string, ghost locs: set<Loc>)
    requires i < |items| && Within(items, cells)
    requires j < |PlacesOf(items[i])| && PlacesOf(items[i])[j].At?
    modifies cells
    ensures forall k | 0 <= k < |items| :: PlacesOf(items[k]) == old(PlacesOf(items[k]))
    ensures forall k | 0 <= k < |items| :: RestOf(items[k]) == old(RestOf(items[k]))
    ensures forall l | l in locs :: TextAt(l) == if PlacesOf(items[i])[j] == At(l) then text else old(TextAt(l))
  {
    var content := items[i].content;
    LocsWithin(items, cells);
    assert PlacesOf(items[i])[j] == PlaceOf(content, j) && CellOf(content[j]) <= cells by {
      assert content[..][j] == content[j];
    }
    WriteText(content, j, text, locs);
    forall k | 0 <= k < |items| ensures RestOf(items[k]) == old(RestOf(items[k])) {
      assert items[k].toolCalls != null ==> items[k].toolCalls[..] == old(items[k].toolCalls[..]);
    }
  }

  /** Writing one text of the messages: where texts are kept and all else stays. */
  method WriteAt(items: seq<Message>, ghost cells: set<object>, i: nat, j: nat, text: string)
    requires i < |items| && Within(items, cells)
    requires j < |PlacesOf(items[i])| && PlacesOf(items[i])[j].At?
    modifies cells
    ensures Within(items, cells) && ShapeOf(items, cells) == old(ShapeOf(items, cells))
    ensures RestsOf(items, cells) == old(RestsOf(items, cells))
    ensures Texts(items, cells) == old(Texts(items, cells))[old(PlacesOf(items[i]))[j].loc := text]
  {
    ghost var shape: Shape := ShapeOf(items, cells);
    ghost var rests, texts := RestsOf(items, cells), Texts(items, cells);
    LocsWithin(items, cells);
    assert shape[i][j].loc in AllLocs(shape);
    WriteIn(items, cells, i, j, text, AllLocs(shape));
    Recognise(items, cells, shape, rests, texts[shape[i][j].loc := text]);
  }

  lemma Recognise(ms: seq<Message>, cells: set<object>, shape: Shape, rests: seq<MessageV>, texts: map<Loc, string>)
    requires |shape| == |rests| == |ms| && texts.Keys == AllLocs(shape)
    requires forall k | 0 <= k < |ms| :: PlacesOf(ms[k]) == shape[k] && RestOf(ms[k]) == rests[k]
    requires forall k | 0 <= k < |ms| :: (ms[k].content != null ==> ms[k].content in cells) && (ms[k].toolCalls != null ==> ms[k].toolCalls in cells)
    requires forall l | l in AllLocs(shape) :: TextAt(l) == texts[l] && (l.Target? ==> l.cell in cells)
    ensures Within(ms, cells) && ShapeOf(ms, cells) == shape && RestsOf(ms, cells) == rests && Texts(ms, cells) == texts
  {
    WithinByPlaces(ms, shape, cells);
    assert ShapeOf(ms, cells) == shape && RestsOf(ms, cells) == rests;
  }

  lemma WithinByPlaces(ms: seq<Message>, shape: Shape, cells: set<object>)
    requires |shape| == |ms| && forall k | 0 <= k < |ms| :: PlacesOf(ms[k]) == shape[k]
    requires forall k | 0 <= k < |ms| :: (ms[k].content != null ==> ms[k].content in cells) && (ms[k].toolCalls != null ==> ms[k].toolCalls in cells)
    requires forall l | l in AllLocs(shape) :: l.Target? ==> l.cell in cells
    ensures Within(ms, cells)
  {
    forall k, o | 0 <= k < |ms| && ms[k].content != null && o in BlockCells(ms[k].content[..]) ensures o in cells {
      var m :| 0 <= m < ms[k].content.Length && o in CellOf(ms[k].content[..][m]);
      assert PlacesOf(ms[k])[m] == PlaceOf(ms[k].content, m);
      assert shape[k][m].loc in AllLocs(shape);
    }
  }

  // ------------------------------------------------------------- normalising messages

  /** Rewriting twice is rewriting once. */
  ghost predicate Settles(f: string -> string) {
    forall t :: f(f(t)) == f(t)
  }

  /** The texts after those in done are rewritten. */
  function Rewritten(texts: map<Loc, string>, done: set<Loc>, f: string -> string): map<Loc, string> {
    map l | l in texts :: if l in done then f(texts[l]) else texts[l]
  }

  /** The texts in done that rewriting changes. */
  function Altered(texts: map<Loc, string>, done: set<Loc>, f: string -> string): set<Loc> {
    set l | l in done && l in texts && f(texts[l]) != texts[l]
  }

  /** Where the system messages among the first n keep their texts. */
  function SystemLocs(shape: Shape, rests: seq<MessageV>, n: nat): set<Loc>
    requires |shape| == |rests| && n <= |rests|
  {
    if n == 0 then {}
    else
      var before := SystemLocs(shape, rests, n - 1);
      if rests[n - 1].role == "system" then before + Locs(shape[n - 1], |shape[n - 1]|) else before
  }

  /** Meeting one more text rewrites it, unless it was met before; then it stays. */
  lemma MeetOne(texts: map<Loc, string>, done: set<Loc>, l: Loc, f: string -> string)
    requires l in texts && Settles(f)
    ensures var now := Rewritten(texts, done, f)[l];
      Rewritten(texts, done + {l}, f) == Rewritten(texts, done, f)[l := f(now)]
  {
    assert f(f(texts[l])) == f(texts[l]);
  }

  lemma CountOne(texts: map<Loc, string>, done: set<Loc>, l: Loc, f: string -> string)
    requires l in texts && Settles(f)
    ensures var now := Rewritten(texts, done, f)[l];
      |Altered(texts, done + {l}, f)| ==
        |Altered(texts, done, f)| + if f(now) != now then 1 else 0
  {
    assert f(f(texts[l])) == f(texts[l]);
    var altered := Altered(texts, done, f);
    if l !in done && f(texts[l]) != texts[l] {
      assert Altered(texts, done + {l}, f) == altered + {l};
    } else {
      assert Altered(texts, done + {l}, f) == altered;
    }
  }

  /** Both, as the loop needs them. */
  lemma Meeting(texts: map<Loc, string>, done: set<Loc>, l: Loc, f: string -> string, now: map<Loc, string>, text: string)
    requires l in texts && Settles(f) && now == Rewritten(texts, done, f) && text == now[l]
    ensures var more, was := |Altered(texts, done + {l}, f)|, |Altered(texts, done, f)|;
      if f(text) != text then Rewritten(texts, done + {l}, f) == now[l := f(text)] && more == was + 1
      else Rewritten(texts, done + {l}, f) == now && more == was
  {
    MeetOne(texts, done, l, f);
    CountOne(texts, done, l, f);
    if f(text) == text {
      assert now[l := text] == now;
    }
  }

  /** The messages are as they were, but that the texts in done are rewritten; changed of
      them are different now. */
  ghost predicate Halfway(items: seq<Message>, cells: set<object>, shape: Shape, rests: seq<MessageV>,
                          texts: map<Loc, string>, done: set<Loc>, f: string -> string, changed: nat)
    reads cells
  {
    && Within(items, cells) && ShapeOf(items, cells) == shape && RestsOf(items, cells) == rests
    && texts.Keys == AllLocs(shape) && Texts(items, cells) == Rewritten(texts, done, f)
    && changed == |Altered(texts, done, f)|
  }

  /** The text of a block, read. */
  method ReadText(items: seq<Message>, ghost cells: set<object>, ghost shape: Shape, i: nat, j: nat) returns (text: string)
    requires Within(items, cells) && ShapeOf(items, cells) == shape
    requires i < |items| && j < |shape[i]| && shape[i][j].At?
    ensures shape[i][j].loc in AllLocs(shape) && text == Texts(items, cells)[shape[i][j].loc]
  {
    var block := items[i].content[j];
    PlacesKept(items, cells, shape, i);
    assert shape[i][j].loc in AllLocs(shape);
    text := if block.Text? then block.text else block.cell.text;
    assert text == TextAt(shape[i][j].loc);
  }

  /** The body of the inner loop, for a block that has a text. */
  method NormalizeText(items: seq<Message>, ghost cells: set<object>, i: nat, j: nat, f: string -> string, changed: nat,
                       ghost shape: Shape, ghost rests: seq<MessageV>, ghost texts: map<Loc, string>, ghost done: set<Loc>)
      returns (more: nat)
    requires Halfway(items, cells, shape, rests, texts, done, f, changed) && Settles(f)
    requires i < |items| && j < |shape[i]| && shape[i][j].At?
    modifies cells
    ensures Halfway(items, cells, shape, rests, texts, done + {shape[i][j].loc}, f, more)
  {
    PlacesKept(items, cells, shape, i);
    var text := ReadText(items, cells, shape, i, j);
    var rewritten := f(text);
    Meeting(texts, done, shape[i][j].loc, f, Texts(items, cells), text);
    more := changed;
    if rewritten != text {
      WriteAt(items, cells, i, j, rewritten);
      more := changed + 1;
    }
  }

  /** The body of the inner loop. */
  method NormalizeBlock(items: seq<Message>, ghost cells: set<object>, i: nat, j: nat, f: string -> string, changed: nat,
                        ghost shape: Shape, ghost rests: seq<MessageV>, ghost texts: map<Loc, string>, ghost done: set<Loc>)
      returns (more: nat, ghost met: set<Loc>)
    requires Halfway(items, cells, shape, rests, texts, done, f, changed) && Settles(f)
    requires i < |items| && items[i].content != null && j < items[i].content.Length
    modifies cells
    ensures Halfway(items, cells, shape, rests, texts, met, f, more)
    ensures j < |shape[i]| && met == done + if shape[i][j].At? then {shape[i][j].loc} else {}
  {
    PlacesKept(items, cells, shape, i);
    var block := items[i].content[j];
    more, met := changed, done;
    if block.Text? || (block.TextPtr? && block.cell != null) {
      more := NormalizeText(items, cells, i, j, f, changed, shape, rests, texts, done);
      met := done + {shape[i][j].loc};
    }
  }

  lemma LocsNext(ps: seq<Place>, j: nat)
    requires j < |ps|
    ensures Locs(ps, j + 1) == Locs(ps, j) + if ps[j].At? then {ps[j].loc} else {}
  {
  }

  lemma LocsMore(done: set<Loc>, ps: seq<Place>, j: nat)
    requires j < |ps|
    ensures done + Locs(ps, j + 1) == done + Locs(ps, j) + if ps[j].At? then {ps[j].loc} else {}
  {
    LocsNext(ps, j);
  }

  /** The inner loop. */
  method NormalizeMessage(items: seq<Message>, ghost cells: set<object>, i: nat, f: string -> string, changed: nat,
                          ghost shape: Shape, ghost rests: seq<MessageV>, ghost texts: map<Loc, string>, ghost done: set<Loc>)
      returns (more: nat, ghost met: set<Loc>)
    requires Halfway(items, cells, shape, rests, texts, done, f, changed) && Settles(f)
    requires i < |items| && items[i].content != null
    modifies cells
    ensures Halfway(items, cells, shape, rests, texts, met, f, more)
    ensures met == done + Locs(shape[i], |shape[i]|)
  {
    more, met := changed, done;
    var n := items[i].content.Length;
    PlacesKept(items, cells, shape, i);
    for j := 0 to n
      invariant Halfway(items, cells, shape, rests, texts, met, f, more)
      invariant met == done + Locs(shape[i], j)
    {
      LocsMore(done, shape[i], j);
      more, met := NormalizeBlock(items, cells, i, j, f, more, shape, rests, texts, met);
    }
  }

  lemma PlacesKept(ms: seq<Message>, cells: set<object>, shape: Shape, i: nat)
    requires i < |ms| && Within(ms, cells) && ShapeOf(ms, cells) == shape
    ensures |shape[i]| == if ms[i].content == null then 0 else ms[i].content.Length
    ensures ms[i].content != null ==> forall j | 0 <= j < |shape[i]| :: shape[i][j] == PlaceOf(ms[i].content, j)
  {
    assert shape[i] == PlacesOf(ms[i]);
  }

  /** NormalizeAnthropicBillingHeaderCCH, for messages that may share texts: every text of
      a system message is rewritten, wherever it shows, and no other; the number of texts
      that changed is returned. f is the rewrite of one text. */
  method NormalizeMessages(items: seq<Message>, ghost cells: set<object>, f: string -> string) returns (changed: nat)
    requires Within(items, cells) && Settles(f)
    modifies cells
    ensures var shape, rests := old(ShapeOf(items, cells)), old(RestsOf(items, cells));
      Halfway(items, cells, shape, rests, old(Texts(items, cells)), SystemLocs(shape, rests, |items|), f, changed)
  {
    changed := 0;
    ghost var texts, shape, rests := Texts(items, cells), ShapeOf(items, cells), RestsOf(items, cells);
    ghost var met: set<Loc> := {};
    NoneMet(texts, f);
    for i := 0 to |items|
      invariant Halfway(items, cells, shape, rests, texts, met, f, changed) && met == SystemLocs(shape, rests, i)
    {
      assert rests[i] == RestOf(items[i]);
      PlacesKept(items, cells, shape, i);
      SystemNext(shape, rests, i);
      if items[i].role == "system" && items[i].content != null {
        changed, met := NormalizeMessage(items, cells, i, f, changed, shape, rests, texts, met);
      }
    }
  }

  lemma SystemNext(shape: Shape, rests: seq<MessageV>, i: nat)
    requires |shape| == |rests| && i < |rests|
    ensures SystemLocs(shape, rests, i + 1) ==
      if rests[i].role == "system" && shape[i] != [] then SystemLocs(shape, rests, i) + Locs(shape[i], |shape[i]|)
      else SystemLocs(shape, rests, i)
    ensures shape[i] == [] ==> Locs(shape[i], |shape[i]|) == {}
  {
  }

  lemma NoneMet(texts: map<Loc, string>, f: string -> string)
    ensures Rewritten(texts, {}, f) == texts && Altered(texts, {}, f) == {}
  {
  }

  // ------------------------------------------------------ against messages as values

  /** rewriteCCHText with this replacement. */
  function CCH(replacement: string): string -> string {
    t => Billing.Rewrite(t, replacement)
  }

  lemma CCHSettles(replacement: string)
    requires Billing.IsValue(replacement)
    ensures Settles(CCH(replacement))
  {
    forall t ensures CCH(replacement)(CCH(replacement)(t)) == CCH(replacement)(t) {
      Billing.Idempotent(t, replacement);
    }
  }

  /** What normalising makes of messages that are kept like this. */
  function NormalView(shape: Shape, texts: map<Loc, string>, rests: seq<MessageV>, replacement: string): seq<MessageV>
    requires |shape| == |rests|
  {
    View(shape, Rewritten(texts, SystemLocs(shape, rests, |rests|), CCH(replacement)), rests)
  }

  /** No text that normalising changes is shown in a message that is not of the system. */
  predicate NoneLeaks(shape: Shape, texts: map<Loc, string>, rests: seq<MessageV>, replacement: string)
    requires |shape| == |rests|
  {
    forall i | 0 <= i < |rests| && rests[i].role != "system" ::
      Altered(texts, SystemLocs(shape, rests, |rests|), CCH(replacement)) !! Locs(shape[i], |shape[i]|)
  }

  lemma {:induction false} SystemLocsAre(shape: Shape, rests: seq<MessageV>, n: nat, i: nat)
    requires |shape| == |rests| && i < n <= |rests| && rests[i].role == "system"
    ensures Locs(shape[i], |shape[i]|) <= SystemLocs(shape, rests, n)
  {
    if i < n - 1 {
      SystemLocsAre(shape, rests, n - 1, i);
    }
  }

  /** Normalising is a function of each message alone if and only if no changed text is
      also shown in a message of another role. */
  lemma NormalisedExactly(shape: Shape, texts: map<Loc, string>, rests: seq<MessageV>, replacement: string)
    requires |shape| == |rests| && texts.Keys == AllLocs(shape)
    ensures NormalView(shape, texts, rests, replacement) == RewriteMessages(View(shape, texts, rests), replacement)
      <==> NoneLeaks(shape, texts, rests, replacement)
  {
    var system := SystemLocs(shape, rests, |rests|);
    var before, after := View(shape, texts, rests), NormalView(shape, texts, rests, replacement);
    var wanted := RewriteMessages(before, replacement);
    forall i | 0 <= i < |rests|
      ensures after[i] == wanted[i] <==>
        rests[i].role == "system" || Altered(texts, system, CCH(replacement)) !! Locs(shape[i], |shape[i]|)
    {
      if rests[i].role == "system" {
        SystemLocsAre(shape, rests, |rests|, i);
        SystemRewritten(shape[i], texts, system, replacement);
      } else {
        OtherKept(shape[i], texts, system, replacement);
      }
    }
    if NoneLeaks(shape, texts, rests, replacement) {
      assert forall i | 0 <= i < |rests| :: after[i] == wanted[i];
      assert after == wanted;
    } else {
      var i :| 0 <= i < |rests| && rests[i].role != "system"
        && !(Altered(texts, system, CCH(replacement)) !! Locs(shape[i], |shape[i]|));
      assert after[i] != wanted[i];
    }
  }

  lemma SystemRewritten(ps: seq<Place>, texts: map<Loc, string>, system: set<Loc>, replacement: string)
    requires Locs(ps, |ps|) <= system && Locs(ps, |ps|) <= texts.Keys
    ensures SeenAll(ps, Rewritten(texts, system, CCH(replacement))) == RewriteBlocks(SeenAll(ps, texts), replacement)
  {
    forall k | 0 <= k < |ps|
      ensures Seen(ps[k], Rewritten(texts, system, CCH(replacement))) == RewriteBlock(Seen(ps[k], texts), replacement)
    {
      assert ps[k].At? ==> ps[k].loc in Locs(ps, |ps|);
      PlaceRewritten(ps[k], texts, system, replacement);
    }
  }

  lemma PlaceRewritten(p: Place, texts: map<Loc, string>, system: set<Loc>, replacement: string)
    requires p.At? ==> p.loc in system && p.loc in texts
    ensures Seen(p, Rewritten(texts, system, CCH(replacement))) == RewriteBlock(Seen(p, texts), replacement)
  {
  }

  lemma OtherKept(ps: seq<Place>, texts: map<Loc, string>, system: set<Loc>, replacement: string)
    requires Locs(ps, |ps|) <= texts.Keys
    ensures SeenAll(ps, Rewritten(texts, system, CCH(replacement))) == SeenAll(ps, texts)
      <==> Altered(texts, system, CCH(replacement)) !! Locs(ps, |ps|)
  {
    var f := CCH(replacement);
    var after := Rewritten(texts, system, f);
    forall k | 0 <= k < |ps| && ps[k].At? ensures Seen(ps[k], after) == Seen(ps[k], texts) <==> ps[k].loc !in Altered(texts, system, f) {
      assert ps[k].loc in Locs(ps, |ps|);
    }
    if Altered(texts, system, f) !! Locs(ps, |ps|) {
      forall k | 0 <= k < |ps| ensures SeenAll(ps, after)[k] == SeenAll(ps, texts)[k] {
        assert ps[k].At? ==> ps[k].loc in Locs(ps, |ps|);
      }
    } else {
      var l :| l in Altered(texts, system, f) && l in Locs(ps, |ps|);
      var k :| 0 <= k < |ps| && ps[k].At? && ps[k].loc == l;
      assert SeenAll(ps, after)[k] != SeenAll(ps, texts)[k];
    }
  }

  /** What normalising makes of a conversation. */
  ghost function Normalised(m: MessageSlice?, replacement: string): seq<MessageV>
    requires ValidSlice(m)
    reads m, SliceCells(m)
  {
    if m == null then []
    else NormalView(ShapeOf(m.items, m.cells), Texts(m.items, m.cells), RestsOf(m.items, m.cells), replacement)
  }

  /** The condition of NormalisedExactly, of a conversation. */
  ghost predicate Unleaked(m: MessageSlice?, replacement: string)
    requires ValidSlice(m)
    reads m, SliceCells(m)
  {
    m != null ==> NoneLeaks(ShapeOf(m.items, m.cells), Texts(m.items, m.cells), RestsOf(m.items, m.cells), replacement)
  }

  lemma UnleakedExactly(m: MessageSlice?, replacement: string)
    requires ValidSlice(m)
    ensures Normalised(m, replacement) == RewriteMessages(ConversationOf(m), replacement) <==> Unleaked(m, replacement)
  {
    if m != null {
      ValuesSeen(m.items, m.cells);
      NormalisedExactly(ShapeOf(m.items, m.cells), Texts(m.items, m.cells), RestsOf(m.items, m.cells), replacement);
    }
  }

  /** NormalizeAnthropicBillingHeaderCCH, on a conversation. */
  method NormalizeConversation(m: MessageSlice, replacement: string) returns (changed: nat)
    requires m.Valid() && Billing.IsValue(replacement)
    modifies m.cells
    ensures m.Valid() && m.Value() == old(Normalised(m, replacement)) && changed == old(Changes(m, replacement))
  {
    CCHSettles(replacement);
    changed := NormalizeMessages(m.items, m.cells, CCH(replacement));
    ValuesSeen(m.items, m.cells);
  }

  /** How many texts normalising changes. */
  ghost function Changes(m: MessageSlice, replacement: string): nat
    requires m.Valid()
    reads m, m.cells
  {
    var shape, rests := ShapeOf(m.items, m.cells), RestsOf(m.items, m.cells);
    |Altered(Texts(m.items, m.cells), SystemLocs(shape, rests, |rests|), CCH(replacement))|
  }

  /** Of messages that share texts, too, normalising changes only values of billing
      headers. */
  lemma NormalHeadersOnly(shape: Shape, texts: map<Loc, string>, rests: seq<MessageV>, replacement: string)
    requires |shape| == |rests| && texts.Keys == AllLocs(shape)
    ensures HeadersOnly(View(shape, texts, rests), NormalView(shape, texts, rests, replacement))
  {
    var system := SystemLocs(shape, rests, |rests|);
    forall i, k | 0 <= i < |rests| && 0 <= k < |shape[i]|
      ensures SameButValue(Seen(shape[i][k], texts), Seen(shape[i][k], Rewritten(texts, system, CCH(replacement))))
    {
      if shape[i][k].At? && shape[i][k].loc in system {
        assert shape[i][k].loc in AllLocs(shape);
        PlaceRewritten(shape[i][k], texts, system, replacement);
      }
      TextSame(Seen(shape[i][k], texts), replacement);
    }
  }

  /** So whatever texts its messages share, a policy writes nothing else to a request. */
  lemma WritesOnlyShared(p: Policy, provider: string, model: string, r: Request, digest: string -> string)
    requires r.Valid() && CacheKey.IsDigest(digest)
    ensures var v := r.Value();
      var w := LeftWith(p, provider, model, v, Normalised(r.messages, Billing.Replacement(p.replacement)), digest);
      && DefaultsOnly(p, v, w.(messages := v.messages))
      && HeadersOnly(v.messages, w.messages)
  {
    ConversationHeadersOnly(r.messages, Billing.Replacement(p.replacement));
    WritesOnlyWith(p, provider, model, r.Value(), Normalised(r.messages, Billing.Replacement(p.replacement)), digest);
  }

  lemma ConversationHeadersOnly(m: MessageSlice?, replacement: string)
    requires ValidSlice(m)
    ensures HeadersOnly(ConversationOf(m), Normalised(m, replacement))
  {
    if m != null {
      ValuesSeen(m.items, m.cells);
      NormalHeadersOnly(ShapeOf(m.items, m.cells), Texts(m.items, m.cells), RestsOf(m.items, m.cells), replacement);
    }
  }

  // ------------------------------------------------------------------ the second pass

  /** What normalising makes of messages, shared texts and all, is fixed message by message. */
  lemma NormalFixed(shape: Shape, texts: map<Loc, string>, rests: seq<MessageV>, replacement: string)
    requires |shape| == |rests| && texts.Keys == AllLocs(shape) && Billing.IsValue(replacement)
    ensures var n := NormalView(shape, texts, rests, replacement); RewriteMessages(n, replacement) == n
  {
    var n, before := NormalView(shape, texts, rests, replacement), View(shape, texts, rests);
    forall i | 0 <= i < |rests| ensures RewriteMessage(n[i], replacement) == n[i] {
      if rests[i].role == "system" {
        SystemLocsAre(shape, rests, |rests|, i);
        assert Locs(shape[i], |shape[i]|) <= AllLocs(shape);
        SystemRewritten(shape[i], texts, SystemLocs(shape, rests, |rests|), replacement);
        assert n[i] == RewriteMessage(before[i], replacement);
        RewriteMessageTwice(before[i], replacement);
      }
    }
  }

  lemma {:induction false} SystemLocsFrom(shape: Shape, rests: seq<MessageV>, n: nat, l: Loc) returns (i: nat)
    requires |shape| == |rests| && n <= |rests| && l in SystemLocs(shape, rests, n)
    ensures i < n && rests[i].role == "system" && l in Locs(shape[i], |shape[i]|)
  {
    if rests[n - 1].role == "system" && l in Locs(shape[n - 1], |shape[n - 1]|) {
      i := n - 1;
    } else {
      i := SystemLocsFrom(shape, rests, n - 1, l);
    }
  }

  lemma FixedText(ps: seq<Place>, texts: map<Loc, string>, l: Loc, replacement: string)
    requires l in Locs(ps, |ps|) && l in texts && RewriteBlocks(SeenAll(ps, texts), replacement) == SeenAll(ps, texts)
    ensures CCH(replacement)(texts[l]) == texts[l]
  {
    var k :| 0 <= k < |ps| && ps[k] == At(l);
    assert SeenAll(ps, texts)[k] == RewriteBlock(SeenAll(ps, texts)[k], replacement);
  }

  /** Messages that are fixed one by one have no text left to change. */
  lemma FixedSettled(shape: Shape, texts: map<Loc, string>, rests: seq<MessageV>, replacement: string)
    requires |shape| == |rests| && texts.Keys == AllLocs(shape)
    requires RewriteMessages(View(shape, texts, rests), replacement) == View(shape, texts, rests)
    ensures Altered(texts, SystemLocs(shape, rests, |rests|), CCH(replacement)) == {}
    ensures NormalView(shape, texts, rests, replacement) == View(shape, texts, rests)
  {
    var vs, system, f := View(shape, texts, rests), SystemLocs(shape, rests, |rests|), CCH(replacement);
    forall l | l in system && l in texts ensures f(texts[l]) == texts[l] {
      var i := SystemLocsFrom(shape, rests, |rests|, l);
      assert RewriteMessage(vs[i], replacement) == vs[i];
      FixedText(shape[i], texts, l, replacement);
    }
    assert Rewritten(texts, system, f) == texts;
  }

  lemma NormalisedFixed(m: MessageSlice?, replacement: string)
    requires ValidSlice(m) && Billing.IsValue(replacement)
    ensures RewriteMessages(Normalised(m, replacement), replacement) == Normalised(m, replacement)
  {
    if m != null {
      NormalFixed(ShapeOf(m.items, m.cells), Texts(m.items, m.cells), RestsOf(m.items, m.cells), replacement);
    }
  }

  /** A conversation that is fixed message by message is left alone by normalising, whatever
      texts its messages share. */
  lemma FixedStays(m: MessageSlice?, replacement: string)
    requires ValidSlice(m) && RewriteMessages(ConversationOf(m), replacement) == ConversationOf(m)
    ensures Normalised(m, replacement) == ConversationOf(m)
    ensures m != null ==> Changes(m, replacement) == 0
  {
    if m != null {
      ValuesSeen(m.items, m.cells);
      FixedSettled(ShapeOf(m.items, m.cells), Texts(m.items, m.cells), RestsOf(m.items, m.cells), replacement);
    }
  }

  /** So a second call of the normaliser changes nothing and reports 0. */
  method NormalizeTwice(m: MessageSlice, replacement: string) returns (first: nat, second: nat)
    requires m.Valid() && Billing.IsValue(replacement)
    modifies m.cells
    ensures m.Valid() && m.Value() == old(Normalised(m, replacement))
    ensures first == old(Changes(m, replacement)) && second == 0
  {
    NormalisedFixed(m, replacement);
    first := NormalizeConversation(m, replacement);
    FixedStays(m, replacement);
    second := NormalizeConversation(m, replacement);
  }

  // --------------------------------------------------------------- a text shown twice

  /** A changed text of a system message that message j of another role shows too. */
  lemma LeakAt(shape: Shape, texts: map<Loc, string>, rests: seq<MessageV>, i: nat, j: nat, l: Loc, replacement: string)
    requires |shape| == |rests| && i < |rests| && j < |rests| && rests[i].role == "system" && rests[j].role != "system"
    requires l in Locs(shape[i], |shape[i]|) && l in Locs(shape[j], |shape[j]|)
    requires texts.Keys == AllLocs(shape) && l in texts && CCH(replacement)(texts[l]) != texts[l]
    ensures !NoneLeaks(shape, texts, rests, replacement)
    ensures NormalView(shape, texts, rests, replacement)[j] != View(shape, texts, rests)[j]
  {
    SystemLocsAre(shape, rests, |rests|, i);
    assert l in Altered(texts, SystemLocs(shape, rests, |rests|), CCH(replacement));
    assert Locs(shape[j], |shape[j]|) <= texts.Keys;
    OtherKept(shape[j], texts, SystemLocs(shape, rests, |rests|), replacement);
  }

  /** A message whose one block points to a text. */
  ghost predicate Points(m: Message, cell: TextCell)
    reads m.content
  {
    m.content != null && m.content.Length == 1 && m.content[0] == TextPtr(cell)
  }

  lemma PointsTo(ms: seq<Message>, cells: set<object>, i: nat, cell: TextCell)
    requires Within(ms, cells) && i < |ms| && Points(ms[i], cell)
    ensures ShapeOf(ms, cells)[i] == [At(Target(cell))] && Target(cell) in AllLocs(ShapeOf(ms, cells))
    ensures Target(cell) in Locs(ShapeOf(ms, cells)[i], 1)
  {
    var shape := ShapeOf(ms, cells);
    assert shape[i] == PlacesOf(ms[i]) == [At(Target(cell))];
    assert shape[i][0].At?;
  }

  lemma LeaksIn(ms: seq<Message>, cells: set<object>, cell: TextCell, replacement: string)
    requires Within(ms, cells) && |ms| == 2 && ms[0].role == "system" && ms[1].role != "system"
    requires Points(ms[0], cell) && Points(ms[1], cell) && CCH(replacement)(cell.text) != cell.text
    ensures var shape, texts, rests := ShapeOf(ms, cells), Texts(ms, cells), RestsOf(ms, cells);
      && !NoneLeaks(shape, texts, rests, replacement)
      && NormalView(shape, texts, rests, replacement)[1] != View(shape, texts, rests)[1]
  {
    var shape, texts, rests := ShapeOf(ms, cells), Texts(ms, cells), RestsOf(ms, cells);
    PointsTo(ms, cells, 0, cell);
    PointsTo(ms, cells, 1, cell);
    LeakAt(shape, texts, rests, 0, 1, Target(cell), replacement);
  }

  /** Two messages, of the system and of another role, that show one text by the same
      pointer. */
  lemma Leaks(m: MessageSlice, cell: TextCell, v: string, replacement: string)
    requires Billing.IsValue(v) && v != replacement && cell.text == Billing.HEADER + "cch=" + v
    requires m.Valid() && |m.items| == 2 && m.items[0].role == "system" && m.items[1].role != "system"
    requires Points(m.items[0], cell) && Points(m.items[1], cell)
    ensures !Unleaked(m, replacement) && Normalised(m, replacement)[1] != m.Value()[1]
  {
    Billing.RewriteChanges(v, replacement);
    ValuesSeen(m.items, m.cells);
    LeaksIn(m.items, m.cells, cell, replacement);
  }

  method ShareText(text: string) returns (m: MessageSlice, cell: TextCell)
    ensures fresh(m) && fresh(m.cells) && m.Valid() && cell.text == text
    ensures |m.items| == 2 && m.items[0].role == "system" && m.items[1].role == "user"
    ensures Points(m.items[0], cell) && Points(m.items[1], cell)
  {
    cell := new TextCell(text);
    var a := new Block[1](_ => TextPtr(cell));
    var b := new Block[1](_ => TextPtr(cell));
    m := new MessageSlice([Message("system", a, null, "", ""), Message("user", b, null, "", "")], {a, b, cell});
  }

  /** It does happen: such messages can be built, and normalising them changes the one that
      is not of the system. */
  method LeakExists(v: string, replacement: string) returns (m: MessageSlice, ghost before: seq<MessageV>)
    requires Billing.IsValue(v) && Billing.IsValue(replacement) && v != replacement
    ensures fresh(m) && m.Valid() && |before| == |m.Value()| == 2
    ensures before[1].role == "user" && m.Value()[1] != before[1]
  {
    var cell;
    m, cell := ShareText(Billing.HEADER + "cch=" + v);
    Leaks(m, cell, v, replacement);
    before := m.Value();
    var changed := NormalizeConversation(m, replacement);
  }

  // ---------------------------------------------- messages that share no text, as in a copy

  /** No two blocks keep their text in the same place. */
  predicate Injective(shape: Shape) {
    && (forall i, k | 0 <= i < k < |shape| :: Locs(shape[i], |shape[i]|) !! Locs(shape[k], |shape[k]|))
    && (forall i, j | 0 <= i < |shape| && 0 <= j < |shape[i]| && shape[i][j].At? :: shape[i][j].loc !in Locs(shape[i], j))
  }

  lemma LocsInCells(m: Message, l: Loc)
    requires l in Locs(PlacesOf(m), |PlacesOf(m)|)
    ensures m.content != null && match l case Slot(a, _) => a == m.content case Target(c) => c in MessageCells(m)
  {
    var k :| 0 <= k < |PlacesOf(m)| && PlacesOf(m)[k] == At(l);
    assert CellOf(m.content[k]) <= BlockCells(m.content[..]) by {
      assert m.content[..][k] == m.content[k];
    }
  }

  lemma ApartInjective(ms: seq<Message>, cells: set<object>)
    requires Within(ms, cells) && Apart(ms, cells)
    ensures Injective(ShapeOf(ms, cells))
  {
    var shape := ShapeOf(ms, cells);
    forall i, k | 0 <= i < k < |ms| ensures Locs(shape[i], |shape[i]|) !! Locs(shape[k], |shape[k]|) {
      forall l | l in Locs(shape[i], |shape[i]|) && l in Locs(shape[k], |shape[k]|) ensures false {
        LocsInCells(ms[i], l);
        LocsInCells(ms[k], l);
      }
    }
    forall i, j | 0 <= i < |ms| && 0 <= j < |shape[i]| && shape[i][j].At? ensures shape[i][j].loc !in Locs(shape[i], j) {
      PlacesKept(ms, cells, shape, i);
      forall m | 0 <= m < j && shape[i][m].At? ensures shape[i][m].loc != shape[i][j].loc {
        var bs := ms[i].content[..];
        assert Distinct(bs) && CellOf(bs[m]) !! CellOf(bs[j]);
      }
    }
  }

  lemma {:induction false} SystemLocsApart(shape: Shape, rests: seq<MessageV>, n: nat, i: nat)
    requires |shape| == |rests| && n <= |rests| && i < |rests| && Injective(shape)
    requires n <= i || rests[i].role != "system"
    ensures SystemLocs(shape, rests, n) !! Locs(shape[i], |shape[i]|)
  {
    if n > 0 {
      SystemLocsApart(shape, rests, n - 1, i);
    }
  }

  /** Then no changed text is shown elsewhere, so normalising is a function of each message
      alone. */
  lemma InjectiveNoneLeaks(shape: Shape, texts: map<Loc, string>, rests: seq<MessageV>, replacement: string)
    requires |shape| == |rests| && Injective(shape)
    ensures NoneLeaks(shape, texts, rests, replacement)
  {
    forall i | 0 <= i < |rests| && rests[i].role != "system"
      ensures Altered(texts, SystemLocs(shape, rests, |rests|), CCH(replacement)) !! Locs(shape[i], |shape[i]|)
    {
      SystemLocsApart(shape, rests, |rests|, i);
    }
  }

  lemma SeparateUnleaked(r: Request, replacement: string)
    requires r.Valid() && r.Separate()
    ensures Normalised(r.messages, replacement) == RewriteMessages(ConversationOf(r.messages), replacement)
  {
    if r.messages != null {
      ApartInjective(r.messages.items, r.messages.cells);
      InjectiveNoneLeaks(ShapeOf(r.messages.items, r.messages.cells), Texts(r.messages.items, r.messages.cells),
        RestsOf(r.messages.items, r.messages.cells), replacement);
    }
    UnleakedExactly(r.messages, replacement);
  }

  lemma {:induction false} AlteredInMessage(ps: seq<Place>, k: nat, texts: map<Loc, string>, replacement: string)
    requires k <= |ps| && Locs(ps, |ps|) <= texts.Keys
    requires forall j | 0 <= j < |ps| && ps[j].At? :: ps[j].loc !in Locs(ps, j)
    ensures |Altered(texts, Locs(ps, k), CCH(replacement))| == ChangedBlocks(SeenAll(ps, texts)[..k], replacement)
  {
    var bs := SeenAll(ps, texts);
    if k == 0 {
      assert Altered(texts, Locs(ps, 0), CCH(replacement)) == {};
    } else {
      AlteredInMessage(ps, k - 1, texts, replacement);
      AlteredNext(ps, k - 1, texts, CCH(replacement));
      assert ps[k - 1].At? ==> ps[k - 1].loc in Locs(ps, |ps|);
      PlaceRewritten(ps[k - 1], texts, if ps[k - 1].At? then {ps[k - 1].loc} else {}, replacement);
      assert bs[..k][..k - 1] == bs[..k - 1] && bs[..k][k - 1] == Seen(ps[k - 1], texts);
    }
  }

  lemma AlteredNext(ps: seq<Place>, k: nat, texts: map<Loc, string>, f: string -> string)
    requires k < |ps| && (ps[k].At? ==> ps[k].loc in texts && ps[k].loc !in Locs(ps, k))
    ensures |Altered(texts, Locs(ps, k + 1), f)| ==
      |Altered(texts, Locs(ps, k), f)| + if ps[k].At? && f(texts[ps[k].loc]) != texts[ps[k].loc] then 1 else 0
  {
    var before := Altered(texts, Locs(ps, k), f);
    LocsNext(ps, k);
    if ps[k].At? && f(texts[ps[k].loc]) != texts[ps[k].loc] {
      assert Altered(texts, Locs(ps, k + 1), f) == before + {ps[k].loc};
    } else {
      assert Altered(texts, Locs(ps, k + 1), f) == before;
    }
  }

  lemma AlteredUnion(texts: map<Loc, string>, a: set<Loc>, b: set<Loc>, f: string -> string)
    requires a !! b
    ensures |Altered(texts, a + b, f)| == |Altered(texts, a, f)| + |Altered(texts, b, f)|
  {
    assert Altered(texts, a + b, f) == Altered(texts, a, f) + Altered(texts, b, f);
  }

  /** And the number of changed texts is the number of changed blocks. */
  lemma {:induction false} InjectiveCounts(shape: Shape, texts: map<Loc, string>, rests: seq<MessageV>, n: nat, replacement: string)
    requires |shape| == |rests| && n <= |rests| && Injective(shape) && AllLocs(shape) <= texts.Keys
    ensures |Altered(texts, SystemLocs(shape, rests, n), CCH(replacement))| == Changed(View(shape, texts, rests)[..n], replacement)
  {
    var f, vs := CCH(replacement), View(shape, texts, rests);
    if n == 0 {
      assert Altered(texts, SystemLocs(shape, rests, 0), f) == {};
    } else {
      var m := n - 1;
      var ps := shape[m];
      InjectiveCounts(shape, texts, rests, m, replacement);
      assert vs[..n][..m] == vs[..m];
      if rests[m].role == "system" {
        assert Locs(ps, |ps|) <= AllLocs(shape);
        AlteredInMessage(ps, |ps|, texts, replacement);
        assert SeenAll(ps, texts)[..|ps|] == vs[m].content;
        SystemLocsApart(shape, rests, m, m);
        AlteredUnion(texts, SystemLocs(shape, rests, m), Locs(ps, |ps|), f);
      }
    }
  }

  lemma SeparateCounts(m: MessageSlice, replacement: string)
    requires m.Valid() && m.Separate()
    ensures Changes(m, replacement) == Changed(m.Value(), replacement)
  {
    var shape, texts, rests := ShapeOf(m.items, m.cells), Texts(m.items, m.cells), RestsOf(m.items, m.cells);
    ApartInjective(m.items, m.cells);
    InjectiveCounts(shape, texts, rests, |rests|, replacement);
    ValuesSeen(m.items, m.cells);
    assert View(shape, texts, rests)[..|rests|] == View(shape, texts, rests);
  }

  // -------------------------------------------------------------------- limits

  method ContentBytes(content: array<Block>, ghost v: seq<BlockV>) returns (text: nat, media: nat)
    requires v == BlocksOf(content[..])
    ensures text == Total(v, BlockText) && media == Total(v, BlockMedia)
  {
    text, media := 0, 0;
    for i := 0 to content.Length
      invariant text == Total(v[..i], BlockText) && media == Total(v[..i], BlockMedia)
    {
      assert v[..i + 1][..i] == v[..i];
      match content[i] {
        case Text(t) => text := text + Text.Bytes(t);
        case TextPtr(c) => if c != null { text := text + Text.Bytes(c.text); }
        case Media(n) => media := media + n;
        case Other(_) =>
      }
    }
    assert v[..content.Length] == v;
  }

  method CallBytes(calls: array<ToolCall>, ghost v: seq<ToolCall>) returns (text: nat)
    requires v == calls[..]
    ensures text == Total(v, CallText)
  {
    text := 0;
    for i := 0 to calls.Length
      invariant text == Total(v[..i], CallText)
    {
      assert v[..i + 1][..i] == v[..i];
      text := text + Text.Bytes(calls[i].name) + Text.Bytes(calls[i].arguments);
    }
    assert v[..calls.Length] == v;
  }

  /** The part of RequestPayloadBytes for one message. */
  method MessageBytes(m: Message, ghost v: MessageV) returns (text: nat, media: nat)
    requires v == MessageOf(m)
    ensures text == MessageText(v) && media == MessageMedia(v)
  {
    text, media := 0, 0;
    if m.content != null {
      text, media := ContentBytes(m.content, v.content);
    }
    if m.toolCalls != null {
      var n := CallBytes(m.toolCalls, v.toolCalls);
      text := text + n;
    }
    text := text + Text.Bytes(m.toolCallID) + Text.Bytes(m.name);
  }

  /** RequestPayloadBytes. */
  method PayloadBytes(items: seq<Message>, ghost cells: set<object>) returns (text: nat, media: nat)
    requires Within(items, cells)
    ensures text == Total(ValuesOf(items, cells), MessageText) && media == Total(ValuesOf(items, cells), MessageMedia)
  {
    ghost var vs := ValuesOf(items, cells);
    text, media := 0, 0;
    for i := 0 to |items|
      invariant text == Total(vs[..i], MessageText) && media == Total(vs[..i], MessageMedia)
      invariant vs == ValuesOf(items, cells)
    {
      assert vs[..i + 1][..i] == vs[..i];
      var t, n := MessageBytes(items[i], vs[i]);
      text, media := text + t, media + n;
    }
    assert vs[..|items|] == vs;
  }

  method Measure(m: MessageSlice?) returns (count: nat, text: nat, media: nat)
    requires ValidSlice(m)
    ensures var vs := old(ConversationOf(m));
      count == |vs| && text == Total(vs, MessageText) && media == Total(vs, MessageMedia)
  {
    count, text, media := 0, 0, 0;
    if m != null {
      count := |m.items|;
      text, media := PayloadBytes(m.items, m.cells);
    }
  }

  method CountSettings(s: Settings, ghost cells: set<object>, show: Tree -> nat) returns (tools: nat, options: nat, schemas: nat)
    requires SettingsWithin(s, cells)
    ensures var v := old(SettingsOf(s, cells));
      && tools == |v.tools| && schemas == SchemaSize(v.tools, show)
      && v.options.Branch? && options == |v.options.kids|
  {
    options := 0;
    if s.options != null {
      KidsOf(s.options);
      options := |s.options.kids|;
    }
    tools, schemas := ToolSchemaBytes(s.tools, show);
  }

  /** What Validate counts. */
  method Count(r: Request, show: Tree -> nat) returns (c: Counts)
    requires r.Valid()
    ensures c == old(CountsOf(r.Value(), show))
  {
    var metadata := if r.metadata == null then 0 else |r.metadata.entries|;
    var tools, options, schemas := CountSettings(r.settings, r.knobs, show);
    var count, text, media := Measure(r.messages);
    c := Counts(count, tools, metadata, options, text, media, schemas);
  }

  /** Validate. */
  method Validate(l: Limits, r: Request) returns (ok: bool)
    requires r.Valid()
    ensures r.Valid() && r.Value() == old(r.Value())
    ensures ok == Allows(l, r.Value())
  {
    var c := Count(r, l.show);
    r.Kept();
    ok := Fits(l, c);
  }

  // ------------------------------------------------------------------ rewriting

  /** RequestDefaults.apply: the default is a new target, never the policy's own. */
  method FillStoreIn(p: Policy, r: Request, ghost v: RequestV)
    modifies r`store
    ensures r.store == old(r.store) || fresh(r.store)
    ensures Around(r, v) == FillStore(p, old(Around(r, v)))
  {
    if p.store.Some? && r.store == null {
      r.store := new BoolCell(p.store.value);
    }
  }

  method RetainIn(p: CacheKey.KeyPolicy, r: Request, ghost v: RequestV)
    modifies r`cache, r.cache
    ensures if old(r.cache) == null then r.cache != null && fresh(r.cache) else r.cache == old(r.cache)
    ensures r.cache.control == if old(r.cache) == null then null else old(r.cache.control)
    ensures Around(r, v) == old(Around(r, v)).(cache := Some(Retained(p, old(Around(r, v)))))
  {
    if r.cache == null {
      r.cache := new CacheCell("", "", "", null);
    }
    if p.retention != "" && r.cache.retention == "" {
      r.cache.retention := p.retention;
    }
  }

  /** The key to write, if any: the decision of PromptCachePolicy.apply. */
  method ChooseKey(p: CacheKey.KeyPolicy, provider: string, model: string, r: Request, digest: string -> string, ghost v: RequestV)
    returns (write: bool, key: Option<string>)
    requires r.cache != null && CacheKey.IsDigest(digest) && p.enabled
    requires Around(r, v) == v.(cache := Some(Retained(p, v)))
    ensures FillCache(p, provider, model, v, digest) ==
      if !write then Some(v.(cache := Some(Retained(p, v))))
      else if key.None? then None
      else Some(v.(cache := Some(Retained(p, v).(key := key.value))))
  {
    assert Around(r, v).cache.value.key == r.cache.key;
    var wanted := Text.TrimSpace(p.key);
    if wanted == "" {
      wanted := CacheKey.DerivedKey(p, provider, model, r.user, MetadataOf(r.metadata));
    }
    if (r.cache.key != "" && !p.override) || wanted == "" {
      return false, None;
    }
    return true, CacheKey.Build(p.maxLength, Text.Split(wanted, ':'), digest);
  }

  /** PromptCachePolicy.apply; v stands for the fields of r that it neither reads nor
      writes. */
  method FillCacheIn(p: CacheKey.KeyPolicy, provider: string, model: string, r: Request, digest: string -> string, ghost v: RequestV)
    returns (ok: bool)
    requires CacheKey.IsDigest(digest)
    modifies r`cache, r.cache
    ensures r.cache == old(r.cache) || (fresh(r.cache) && old(r.cache) == null)
    ensures r.cache != null ==> r.cache.control == if old(r.cache) == null then null else old(r.cache.control)
    ensures FillCache(p, provider, model, old(Around(r, v)), digest) == if ok then Some(Around(r, v)) else None
    ensures !ok ==> Around(r, v) == old(Around(r, v)).(cache := Some(Retained(p, old(Around(r, v)))))
  {
    if !p.enabled {
      return true;
    }
    ghost var u := Around(r, v);
    RetainIn(p, r, v);
    var write, key := ChooseKey(p, provider, model, r, digest, u);
    if write && key.None? {
      return false;
    }
    if write {
      r.cache.key := key.value;
    }
    return true;
  }

  /** The defaults of a policy, which touch neither messages nor settings. */
  method DefaultsIn(p: Policy, provider: string, model: string, r: Request, digest: string -> string, ghost v: RequestV)
      returns (ok: bool)
    requires CacheKey.IsDigest(digest) && Around(r, v) == v
    modifies r`store, r`cache, r`Repr, r.cache
    ensures r.Repr == old(r.Repr) + PointerCells(r.metadata, r.store, r.cache)
    ensures fresh(PointerCells(r.metadata, r.store, r.cache) - old(PointerCells(r.metadata, r.store, r.cache)))
    ensures FillCache(p.promptCache, provider, model, FillStore(p, v), digest) == if ok then Some(Around(r, v)) else None
    ensures !ok ==> Around(r, v) == FillStore(p, v).(cache := Some(Retained(p.promptCache, FillStore(p, v))))
  {
    FillStoreIn(p, r, v);
    ok := FillCacheIn(p.promptCache, provider, model, r, digest, v);
    ghost var u := Around(r, v);
    r.Repr := r.Repr + PointerCells(r.metadata, r.store, r.cache);
    assert Around(r, v) == u;
  }

  /** Messages share nothing with the other fields. */
  lemma TextsApart(messages: MessageSlice?, r: Request, metadata: StringMap?, store: BoolCell?, cache: CacheCell?)
    requires ValidSlice(messages)
    ensures messages != null ==> r !in messages.cells && cache !in messages.cells
    ensures messages != null ==> messages.cells !! PointerCells(metadata, store, cache) && messages !in PointerCells(metadata, store, cache)
  {
  }

  /** CacheBreakerPolicy.apply, which touches texts of messages alone. */
  method BreaksIn(p: Policy, messages: MessageSlice?, ghost others: set<object>)
    requires ValidSlice(messages) && (messages != null ==> messages.cells !! others)
    modifies if messages == null then {} else messages.cells
    ensures ValidSlice(messages) && unchanged(others)
    ensures ConversationOf(messages) ==
      if p.breaker && p.billingHeader then old(Normalised(messages, Billing.Replacement(p.replacement))) else old(ConversationOf(messages))
  {
    if p.breaker && p.billingHeader && messages != null {
      var changed := NormalizeConversation(messages, Billing.Replacement(p.replacement));
    }
  }

  method BreaksApart(p: Policy, r: Request, ghost v: RequestV)
    requires ValidSlice(r.messages)
    modifies if r.messages == null then {} else r.messages.cells
    ensures unchanged(r) && ValidSlice(r.messages) && Around(r, v) == old(Around(r, v))
    ensures PointerCells(r.metadata, r.store, r.cache) == old(PointerCells(r.metadata, r.store, r.cache))
    ensures ConversationOf(r.messages) ==
      if p.breaker && p.billingHeader then old(Normalised(r.messages, Billing.Replacement(p.replacement))) else old(ConversationOf(r.messages))
  {
    TextsApart(r.messages, r, r.metadata, r.store, r.cache);
    BreaksIn(p, r.messages, {r} + PointerCells(r.metadata, r.store, r.cache));
    r.PointersKept(v);
  }

  twostate lemma MessagesKept(m: MessageSlice?)
    requires old(ValidSlice(m)) && unchanged(old(SliceCells(m)))
    ensures ValidSlice(m) && ConversationOf(m) == old(ConversationOf(m))
    ensures forall replacement :: Normalised(m, replacement) == old(Normalised(m, replacement))
  {
  }

  /** The parts of a request that a policy writes; u is what becomes of the value v, the
      messages aside. */
  method TransformParts(p: Policy, provider: string, model: string, r: Request, digest: string -> string, ghost v: RequestV)
      returns (ok: bool, ghost u: RequestV)
    requires ValidSlice(r.messages) && Around(r, v) == v && CacheKey.IsDigest(digest)
    modifies r`store, r`cache, r`Repr, r.cache, if r.messages == null then {} else r.messages.cells
    ensures r.messages == old(r.messages) && r.settings == old(r.settings) && r.knobs == old(r.knobs) && r.stop == old(r.stop)
    ensures ValidSlice(r.messages) && u == Around(r, v)
    ensures r.Repr == old(r.Repr) + PointerCells(r.metadata, r.store, r.cache)
    ensures fresh(PointerCells(r.metadata, r.store, r.cache) - old(PointerCells(r.metadata, r.store, r.cache)))
    ensures FillCache(p.promptCache, provider, model, FillStore(p, v), digest) == if ok then Some(u) else None
    ensures !ok ==> u == FillStore(p, v).(cache := Some(Retained(p.promptCache, FillStore(p, v))))
    ensures ConversationOf(r.messages) ==
      if ok && p.breaker && p.billingHeader then old(Normalised(r.messages, Billing.Replacement(p.replacement)))
      else old(ConversationOf(r.messages))
  {
    TextsApart(r.messages, r, r.metadata, r.store, r.cache);
    ok := DefaultsIn(p, provider, model, r, digest, v);
    u := Around(r, v);
    MessagesKept(r.messages);
    if ok {
      BreaksApart(p, r, v);
    }
  }

  lemma TransformedBy(p: Policy, provider: string, model: string, v: RequestV, n: seq<MessageV>, digest: string -> string, ok: bool, u: RequestV)
    requires CacheKey.IsDigest(digest) && u.messages == v.messages
    requires FillCache(p.promptCache, provider, model, FillStore(p, v), digest) == if ok then Some(u) else None
    requires !ok ==> u == FillStore(p, v).(cache := Some(Retained(p.promptCache, FillStore(p, v))))
    ensures ok <==> TransformWith(p, provider, model, v, n, digest).Some?
    ensures Transformed(p, provider, model, v, n, digest) ==
      u.(messages := if ok && p.breaker && p.billingHeader then n else v.messages)
  {
  }

  method TransformIn(p: Policy, provider: string, model: string, r: Request, digest: string -> string, ghost v: RequestV,
                     ghost n: seq<MessageV>) returns (ok: bool)
    requires r.Valid() && r.Value() == v && CacheKey.IsDigest(digest)
    requires n == Normalised(r.messages, Billing.Replacement(p.replacement))
    modifies r, r.Repr
    ensures r.Valid() && fresh(r.Repr - old(r.Repr))
    ensures r.Value() == Transformed(p, provider, model, v, n, digest)
    ensures ok <==> TransformWith(p, provider, model, v, n, digest).Some?
  {
    ghost var u;
    ok, u := TransformParts(p, provider, model, r, digest, v);
    TransformedBy(p, provider, model, v, n, digest, ok, u);
    r.PartsWritten();
  }

  /** What follows the first check. */
  method RewriteIn(p: Policy, provider: string, model: string, r: Request, digest: string -> string, ghost v: RequestV,
                   ghost n: seq<MessageV>) returns (verdict: Verdict<()>)
    requires r.Valid() && r.Value() == v && CacheKey.IsDigest(digest)
    requires n == Normalised(r.messages, Billing.Replacement(p.replacement))
    modifies r, r.Repr
    ensures r.Valid() && fresh(r.Repr - old(r.Repr))
    ensures r.Value() == Transformed(p, provider, model, v, n, digest)
    ensures verdict ==
      if TransformWith(p, provider, model, v, n, digest).None? then Panicked
      else if Allows(p.limits, Transformed(p, provider, model, v, n, digest)) then Applied(()) else Rejected
  {
    var ok := TransformIn(p, provider, model, r, digest, v, n);
    if !ok {
      return Panicked;
    }
    ok := Validate(p.limits, r);
    return if ok then Applied(()) else Rejected;
  }

  /** The first check, which changes nothing. */
  method CheckFirst(l: Limits, r: Request, ghost v: RequestV, ghost n: seq<MessageV>, ghost replacement: string) returns (ok: bool)
    requires r.Valid() && r.Value() == v && n == Normalised(r.messages, replacement)
    ensures r.Valid() && r.Value() == v && n == Normalised(r.messages, replacement) && r.Repr == old(r.Repr)
    ensures ok == Allows(l, v)
  {
    ok := Validate(l, r);
    MessagesKept(r.messages);
  }

  method BothChecks(p: Policy, provider: string, model: string, r: Request, digest: string -> string, ghost v: RequestV,
                    ghost n: seq<MessageV>) returns (verdict: Verdict<()>)
    requires r.Valid() && r.Value() == v && CacheKey.IsDigest(digest)
    requires n == Normalised(r.messages, Billing.Replacement(p.replacement))
    modifies r, r.Repr
    ensures r.Valid() && fresh(r.Repr - old(r.Repr))
    ensures r.Value() == if Allows(p.limits, v) then Transformed(p, provider, model, v, n, digest) else v
    ensures verdict ==
      if !Allows(p.limits, v) then Rejected
      else if TransformWith(p, provider, model, v, n, digest).None? then Panicked
      else if Allows(p.limits, Transformed(p, provider, model, v, n, digest)) then Applied(()) else Rejected
  {
    var ok := CheckFirst(p.limits, r, v, n, Billing.Replacement(p.replacement));
    verdict := Rejected;
    if ok {
      verdict := RewriteIn(p, provider, model, r, digest, v, n);
    }
  }

  /** ApplyContext, the reporter aside: the answer, and the request it leaves. */
  method ApplyTo(p: Policy, provider: string, model: string, r: Request, digest: string -> string)
    returns (verdict: Verdict<()>)
    requires r.Valid() && CacheKey.IsDigest(digest)
    modifies r, r.Repr
    ensures r.Valid() && fresh(r.Repr - old(r.Repr))
    ensures var v, n := old(r.Value()), old(Normalised(r.messages, Billing.Replacement(p.replacement)));
      && r.Value() == LeftWith(p, provider, model, v, n, digest)
      && verdict == Answer(ApplyWith(p, provider, model, v, n, digest))
      && (verdict.Applied? ==> ApplyWith(p, provider, model, v, n, digest) == Applied(r.Value()))
  {
    ghost var v, n := r.Value(), Normalised(r.messages, Billing.Replacement(p.replacement));
    AnswerLeft(p, provider, model, v, n, digest);
    verdict := BothChecks(p, provider, model, r, digest, v, n);
  }

  /** The same for a request whose messages share no text. */
  method ApplyToSeparate(p: Policy, provider: string, model: string, r: Request, digest: string -> string)
    returns (verdict: Verdict<()>)
    requires r.Valid() && r.Separate() && CacheKey.IsDigest(digest)
    modifies r, r.Repr
    ensures r.Valid() && fresh(r.Repr - old(r.Repr))
    ensures r.Value() == Left(p, provider, model, old(r.Value()), digest)
    ensures verdict == Answer(Apply(p, provider, model, old(r.Value()), digest))
    ensures verdict.Applied? ==> Apply(p, provider, model, old(r.Value()), digest) == Applied(r.Value())
  {
    SeparateUnleaked(r, Billing.Replacement(p.replacement));
    verdict := ApplyTo(p, provider, model, r, digest);
  }

  /** A request that a policy was applied to is one that the policy leaves as it is. */
  lemma Settled(p: Policy, provider: string, model: string, r: Request, digest: string -> string, v: RequestV, n: seq<MessageV>)
    requires r.Valid() && CacheKey.IsDigest(digest) && RewriteMessages(n, Billing.Replacement(p.replacement)) == n
    requires ApplyWith(p, provider, model, v, n, digest) == Applied(r.Value())
    ensures ApplyWith(p, provider, model, r.Value(), Normalised(r.messages, Billing.Replacement(p.replacement)), digest) == Applied(r.Value())
  {
    var w, again := r.Value(), Normalised(r.messages, Billing.Replacement(p.replacement));
    if p.breaker && p.billingHeader {
      assert ConversationOf(r.messages) == n;
      FixedStays(r.messages, Billing.Replacement(p.replacement));
    }
    FixpointWith(p, provider, model, v, n, again, digest);
  }

  /** So a second application succeeds if the first did, and changes nothing, whatever texts
      the messages share. */
  method ApplyTwice(p: Policy, provider: string, model: string, r: Request, digest: string -> string)
    returns (first: Verdict<()>, second: Verdict<()>, ghost between: RequestV)
    requires r.Valid() && CacheKey.IsDigest(digest)
    modifies r, r.Repr
    ensures r.Valid()
    ensures var v, n := old(r.Value()), old(Normalised(r.messages, Billing.Replacement(p.replacement)));
      first.Applied? ==> second.Applied? && r.Value() == between && ApplyWith(p, provider, model, v, n, digest) == Applied(between)
  {
    ghost var v, n := r.Value(), Normalised(r.messages, Billing.Replacement(p.replacement));
    NormalisedFixed(r.messages, Billing.Replacement(p.replacement));
    first := ApplyTo(p, provider, model, r, digest);
    second, between := first, r.Value();
    if first.Applied? {
      Settled(p, provider, model, r, digest, v, n);
      second := ApplyTo(p, provider, model, r, digest);
    }
  }
}
