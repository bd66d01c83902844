/** Requests as they lie in memory, their abstract values, and the deep copy of
    request_clone.go. An object is one allocation of the original: the backing
    array of a slice, a map, or the target of a pointer. */
module Requests {
  import opened Options
  import opened Messages
  import opened Trees
  import opened Settings

  // ----------------------------------------------------------------- messages

  /** The target of a *TextContent. */
  class TextCell {
    var text: string

    constructor (text: string)
      ensures this.text == text
    {
      this.text := text;
    }
  }

  /** A content block: text by value, text by pointer, media of a given size, or a reference
      of a type the copier does not know. */
  datatype Block = Text(text: string) | TextPtr(cell: TextCell?) | Media(bytes: nat) | Other(o: object)

  datatype Message = Message(role: string, content: array?<Block>, toolCalls: array?<ToolCall>, toolCallID: string, name: string)

  datatype BlockV = TextV(text: string) | TextPtrV(target: Option<string>) | MediaV(bytes: nat) | OtherV(o: object)

  datatype MessageV = MessageV(role: string, content: seq<BlockV>, toolCalls: seq<ToolCall>, toolCallID: string, name: string)

  function CellOf(b: Block): set<object> {
    if b.TextPtr? && b.cell != null then {b.cell} else {}
  }

  function BlockOf(b: Block): BlockV
    reads CellOf(b)
  {
    match b
    case Text(t) => TextV(t)
    case TextPtr(c) => TextPtrV(if c == null then None else Some(c.text))
    case Media(n) => MediaV(n)
    case Other(o) => OtherV(o)
  }

  ghost function BlockCells(bs: seq<Block>): (r: set<object>)
    ensures forall i | 0 <= i < |bs| :: CellOf(bs[i]) <= r
    ensures forall o | o in r :: exists i | 0 <= i < |bs| :: o in CellOf(bs[i])
  {
    set i, o | 0 <= i < |bs| && o in CellOf(bs[i]) :: o
  }

  ghost function BlocksOf(bs: seq<Block>): (r: seq<BlockV>)
    reads BlockCells(bs)
    ensures |r| == |bs| && forall i | 0 <= i < |bs| :: r[i] == BlockOf(bs[i])
  {
    seq(|bs|, i requires 0 <= i < |bs| reads BlockCells(bs) => BlockOf(bs[i]))
  }

  /** Everything reachable from a message. */
  ghost function MessageCells(m: Message): set<object>
    reads m.content
  {
    (if m.content == null then {} else {m.content} + BlockCells(m.content[..]))
    + (if m.toolCalls == null then {} else {m.toolCalls})
  }

  ghost function MessageOf(m: Message): MessageV
    reads m.content, MessageCells(m)
  {
    MessageV(m.role,
      if m.content == null then [] else BlocksOf(m.content[..]),
      if m.toolCalls == null then [] else m.toolCalls[..],
      m.toolCallID, m.name)
  }

  /** Where a text is kept: in a slot of a content array, or in the target of a pointer. */
  datatype Loc = Slot(content: array<Block>, index: nat) | Target(cell: TextCell)

  /** A block as a text that is kept somewhere, a nil pointer, media, or something else. */
  datatype Place = At(loc: Loc) | Nil | Sized(bytes: nat) | Held(o: object)

  function PlaceOf(content: array<Block>, j: nat): Place
    requires j < content.Length
    reads content
  {
    match content[j]
    case Text(_) => At(Slot(content, j))
    case TextPtr(c) => if c == null then Nil else At(Target(c))
    case Media(n) => Sized(n)
    case Other(o) => Held(o)
  }

  function PlacesOf(m: Message): seq<Place>
    reads m.content
  {
    if m.content == null then []
    else seq(m.content.Length, j requires 0 <= j < m.content.Length reads m.content => PlaceOf(m.content, j))
  }

  method CloneBlock(b: Block) returns (c: Block)
    ensures fresh(CellOf(c)) && BlockOf(c) == BlockOf(b)
  {
    if b.TextPtr? && b.cell != null {
      var cell := new TextCell(b.cell.text);
      return TextPtr(cell);
    }
    return b;
  }

  method CloneBlocks(src: array?<Block>) returns (dst: array?<Block>, ghost cells: set<object>)
    ensures fresh(cells) && (src == null || src.Length == 0 <==> dst == null)
    ensures dst != null ==> fresh(dst) && BlockCells(dst[..]) <= cells
    ensures (if dst == null then [] else BlocksOf(dst[..])) == if src == null then [] else old(BlocksOf(src[..]))
    ensures dst != null ==> Distinct(dst[..])
  {
    if src == null || src.Length == 0 {
      return null, {};
    }
    dst, cells := CopyBlocks(src, BlocksOf(src[..]));
  }

  method CopyBlocks(src: array<Block>, ghost vs: seq<BlockV>) returns (dst: array<Block>, ghost cells: set<object>)
    requires vs == BlocksOf(src[..])
    ensures fresh(cells) && fresh(dst) && BlockCells(dst[..]) <= cells
    ensures BlocksOf(dst[..]) == vs && Distinct(dst[..])
  {
    cells := {};
    dst := new Block[src.Length](_ => Media(0));
    for i := 0 to src.Length
      invariant fresh(cells) && dst !in cells
      invariant forall k | 0 <= k < src.Length :: BlockOf(src[k]) == vs[k]
      invariant forall k | 0 <= k < i :: CellOf(dst[k]) <= cells && BlockOf(dst[k]) == vs[k]
      invariant forall j, k | 0 <= j < k < i :: CellOf(dst[j]) !! CellOf(dst[k])
    {
      var c := CloneBlock(src[i]);
      dst[i] := c;
      cells := cells + CellOf(c);
    }
  }

  /** No two blocks point to the same text. */
  ghost predicate Distinct(bs: seq<Block>) {
    forall i, j | 0 <= i < j < |bs| :: CellOf(bs[i]) !! CellOf(bs[j])
  }

  method CloneMessage(m: Message, ghost v: MessageV) returns (c: Message)
    requires v == MessageOf(m)
    ensures fresh(MessageCells(c)) && MessageOf(c) == v
    ensures c.content != null ==> Distinct(c.content[..])
  {
    var content, cells := CloneBlocks(m.content);
    var calls: array?<ToolCall> := null;
    if m.toolCalls != null && m.toolCalls.Length > 0 {
      calls := new ToolCall[m.toolCalls.Length](i requires 0 <= i < m.toolCalls.Length reads m.toolCalls => m.toolCalls[i]);
      assert calls[..] == m.toolCalls[..];
    }
    c := m.(content := content, toolCalls := calls);
  }

  /** Messages are made of texts and slices alone. */
  ghost predicate OnlyTexts(cells: set<object>) {
    forall o | o in cells :: o is TextCell || o is array<Block> || o is array<ToolCall>
  }

  /** Everything reachable from the messages lies in `cells`. */
  ghost predicate Within(ms: seq<Message>, cells: set<object>)
    reads cells
  {
    forall i | 0 <= i < |ms| ::
      (ms[i].content != null ==> ms[i].content in cells) && MessageCells(ms[i]) <= cells
  }

  ghost function ValuesOf(ms: seq<Message>, cells: set<object>): (r: seq<MessageV>)
    requires Within(ms, cells)
    reads cells
    ensures |r| == |ms| && forall i | 0 <= i < |ms| :: r[i] == MessageOf(ms[i])
  {
    seq(|ms|, i requires 0 <= i < |ms| && Within(ms, cells) reads cells => MessageOf(ms[i]))
  }

  /** Where every text of the messages is kept. */
  type Shape = seq<seq<Place>>

  ghost function ShapeOf(ms: seq<Message>, cells: set<object>): (r: Shape)
    requires Within(ms, cells)
    reads cells
    ensures |r| == |ms| && forall i | 0 <= i < |ms| :: r[i] == PlacesOf(ms[i])
  {
    seq(|ms|, i requires 0 <= i < |ms| && Within(ms, cells) reads cells => PlacesOf(ms[i]))
  }

  /** No two messages share anything. */
  ghost predicate Apart(ms: seq<Message>, cells: set<object>)
    requires Within(ms, cells)
    reads cells
  {
    && (forall i | 0 <= i < |ms| && ms[i].content != null :: Distinct(ms[i].content[..]))
    && forall i, j | 0 <= i < j < |ms| :: MessageCells(ms[i]) !! MessageCells(ms[j])
  }

  /** One turn of the loop of cloneMessages. */
  method CloneNext(m: Message, ghost v: MessageV, copies: seq<Message>, ghost cells: set<object>)
      returns (more: seq<Message>, ghost grown: set<object>)
    requires v == MessageOf(m) && Within(copies, cells) && Apart(copies, cells)
    ensures cells <= grown && fresh(grown - cells) && (OnlyTexts(cells) ==> OnlyTexts(grown))
    ensures Within(more, grown) && Apart(more, grown)
    ensures ValuesOf(more, grown) == old(ValuesOf(copies, cells)) + [v]
  {
    var c := CloneMessage(m, v);
    AppendCopy(copies, cells, c);
    more, grown := copies + [c], cells + MessageCells(c);
  }

  method CloneEach(items: seq<Message>, ghost from: set<object>) returns (copies: seq<Message>, ghost cells: set<object>)
    requires Within(items, from)
    ensures fresh(cells) && OnlyTexts(cells) && Within(copies, cells) && Apart(copies, cells)
    ensures ValuesOf(copies, cells) == ValuesOf(items, from)
  {
    ghost var vs := ValuesOf(items, from);
    copies, cells := [], {};
    for i := 0 to |items|
      invariant fresh(cells) && OnlyTexts(cells) && Within(copies, cells) && Apart(copies, cells)
      invariant Within(items, from) && vs == ValuesOf(items, from) && ValuesOf(copies, cells) == vs[..i]
    {
      assert vs[i] == MessageOf(items[i]) && vs[..i + 1] == vs[..i] + [vs[i]];
      copies, cells := CloneNext(items[i], vs[i], copies, cells);
    }
  }

  /** The backing array of a []Message; `cells` is what its messages are made of. */
  class MessageSlice {
    var items: seq<Message>
    ghost var cells: set<object>

    ghost predicate Valid()
      reads this, cells
    {
      this !in cells && OnlyTexts(cells) && Within(items, cells)
    }

    ghost function Value(): seq<MessageV>
      requires Valid()
      reads this, cells
    {
      ValuesOf(items, cells)
    }

    ghost predicate Separate()
      requires Valid()
      reads this, cells
    {
      Apart(items, cells)
    }

    constructor (items: seq<Message>, ghost cells: set<object>)
      ensures this.items == items && this.cells == cells
    {
      this.items, this.cells := items, cells;
    }
  }

  ghost function SliceCells(m: MessageSlice?): set<object>
    reads m
  {
    if m == null then {} else {m} + m.cells
  }

  ghost predicate ValidSlice(m: MessageSlice?)
    reads m, SliceCells(m)
  {
    m != null ==> m.Valid()
  }

  ghost function ConversationOf(m: MessageSlice?): seq<MessageV>
    requires ValidSlice(m)
    reads m, SliceCells(m)
  {
    if m == null then [] else m.Value()
  }

  method CloneMessages(src: MessageSlice?) returns (dst: MessageSlice?)
    requires ValidSlice(src)
    ensures ValidSlice(dst) && fresh(SliceCells(dst)) && ConversationOf(dst) == ConversationOf(src)
    ensures dst == null <==> src == null || src.items == []
    ensures dst != null ==> dst.Separate()
  {
    if src == null || src.items == [] {
      return null;
    }
    var copies, cells := CloneEach(src.items, src.cells);
    dst := new MessageSlice(copies, cells);
  }

  lemma AppendCopy(copies: seq<Message>, cells: set<object>, c: Message)
    requires Within(copies, cells) && Apart(copies, cells)
    requires MessageCells(c) !! cells && (c.content != null ==> Distinct(c.content[..]))
    ensures Within(copies + [c], cells + MessageCells(c)) && Apart(copies + [c], cells + MessageCells(c))
    ensures ValuesOf(copies + [c], cells + MessageCells(c)) == ValuesOf(copies, cells) + [MessageOf(c)]
  {
    var more := copies + [c];
    forall i, j | 0 <= i < j < |more| ensures MessageCells(more[i]) !! MessageCells(more[j]) {
      assert MessageCells(more[i]) <= cells by { assert MessageCells(copies[i]) <= cells; }
    }
  }

  /** Blocks of one value hold the same, be it by value or by pointer. */
  ghost predicate SameBlock(a: Block, b: Block)
    reads CellOf(a), CellOf(b)
  {
    match a
    case TextPtr(c) => b.TextPtr? && (c == null <==> b.cell == null) && (c != null ==> c.text == b.cell.text)
    case _ => a == b
  }

  /** Messages of one value agree field by field and block by block. */
  lemma SameMessage(a: Message, b: Message)
    requires MessageOf(a) == MessageOf(b)
    ensures a.role == b.role && a.toolCallID == b.toolCallID && a.name == b.name
    ensures (if a.toolCalls == null then [] else a.toolCalls[..]) == (if b.toolCalls == null then [] else b.toolCalls[..])
    ensures var xs, ys := if a.content == null then [] else a.content[..], if b.content == null then [] else b.content[..];
      |xs| == |ys| && forall j | 0 <= j < |xs| :: SameBlock(xs[j], ys[j])
  {
    var xs, ys := if a.content == null then [] else a.content[..], if b.content == null then [] else b.content[..];
    assert MessageOf(a).content == BlocksOf(xs) && MessageOf(b).content == BlocksOf(ys);
    forall j | 0 <= j < |xs| ensures SameBlock(xs[j], ys[j]) {
      assert BlockOf(xs[j]) == BlocksOf(xs)[j] == BlocksOf(ys)[j];
    }
  }

  lemma SameMessages(a: MessageSlice?, b: MessageSlice?)
    requires ValidSlice(a) && ValidSlice(b) && ConversationOf(a) == ConversationOf(b)
    ensures var xs, ys := if a == null then [] else a.items, if b == null then [] else b.items;
      |xs| == |ys| && forall i | 0 <= i < |xs| :: MessageOf(xs[i]) == MessageOf(ys[i])
  {
    var xs, ys := if a == null then [] else a.items, if b == null then [] else b.items;
    forall i | 0 <= i < |xs| ensures MessageOf(xs[i]) == MessageOf(ys[i]) {
      assert MessageOf(xs[i]) == ConversationOf(a)[i] == ConversationOf(b)[i];
    }
  }

  // ------------------------------------------------------------------ requests

  class CacheCell {
    var key: string
    var retention: string
    var cachedContent: string
    var control: ControlCell?

    constructor (key: string, retention: string, cachedContent: string, control: ControlCell?)
      ensures this.key == key && this.retention == retention && this.cachedContent == cachedContent && this.control == control
    {
      this.key, this.retention, this.cachedContent, this.control := key, retention, cachedContent, control;
    }
  }

  class StringMap {
    var entries: map<string, string>

    constructor (entries: map<string, string>)
      ensures this.entries == entries
    {
      this.entries := entries;
    }
  }

  datatype CacheV = CacheV(key: string, retention: string, cachedContent: string, control: Option<string>)

  datatype RequestV = RequestV(
    model: string, messages: seq<MessageV>, stop: seq<string>, settings: SettingsV, metadata: map<string, string>,
    store: Option<bool>, cache: Option<CacheV>, user: string)

  const ZERO_REQUEST: RequestV := RequestV("", [], [], ZERO_SETTINGS_VALUE, map[], None, None, "")

  function MetadataOf(metadata: StringMap?): map<string, string>
    reads metadata
  {
    if metadata == null then map[] else metadata.entries
  }

  function CacheOf(cache: CacheCell?): Option<CacheV>
    reads cache, if cache == null then null else cache.control
  {
    if cache == null then None
    else Some(CacheV(cache.key, cache.retention, cache.cachedContent,
      if cache.control == null then None else Some(cache.control.ttl)))
  }

  /** The targets of the map and pointer fields. */
  ghost function PointerCells(metadata: StringMap?, store: BoolCell?, cache: CacheCell?): set<object>
    reads cache
  {
    (if metadata == null then {} else {metadata})
    + (if store == null then {} else {store})
    + (if cache == null then {} else {cache} + if cache.control == null then {} else {cache.control})
  }

  /** The value v, with the model, metadata, store flag, cache options and user of r. */
  ghost function Around(r: Request, v: RequestV): RequestV
    reads r, r.cache, PointerCells(r.metadata, r.store, r.cache)
  {
    v.(model := r.model, metadata := MetadataOf(r.metadata), store := BoolOf(r.store), cache := CacheOf(r.cache), user := r.user)
  }

  class Request {
    var model: string
    var messages: MessageSlice?
    var stop: array?<string>
    var settings: Settings
    var metadata: StringMap?
    var store: BoolCell?
    var cache: CacheCell?
    var user: string

    /** What the settings are made of. */
    ghost var knobs: set<object>

    /** Everything a holder of the request may write to, the stop sequences aside. */
    ghost var Repr: set<object>

    ghost predicate Valid()
      reads this, Repr
    {
      && this in Repr
      && (messages != null ==> messages in Repr && messages.cells <= Repr && messages.Valid())
      && knobs <= Repr && SettingsWithin(settings, knobs) && this !in knobs && cache !in knobs
      && (messages != null ==> messages !in knobs && messages.cells !! knobs)
      && (metadata != null ==> metadata in Repr)
      && (store != null ==> store in Repr)
      && (cache != null ==> cache in Repr && (cache.control != null ==> cache.control in Repr))
      && (stop != null ==> stop !in Repr)
    }

    /** No two messages share content; true of every copy. */
    ghost predicate Separate()
      requires Valid()
      reads this, Repr
    {
      messages != null ==> messages.Separate()
    }

    ghost function Value(): RequestV
      requires Valid()
      reads this, Repr, stop
    {
      RequestV(model, ConversationOf(messages), if stop == null then [] else stop[..], SettingsOf(settings, knobs),
        MetadataOf(metadata), BoolOf(store), CacheOf(cache), user)
    }

    constructor Zero()
      ensures Valid() && Separate() && Value() == ZERO_REQUEST && fresh(Repr)
    {
      model, messages, stop, settings := "", null, null, ZERO_SETTINGS;
      metadata, store, cache, user := null, null, null, "";
      knobs, Repr := {}, {this};
    }

    /** A struct copy of `from` with the pointers and slices replaced by ones that
        lie in `repr`. */
    constructor Copy(from: Request, messages: MessageSlice?, settings: Settings, ghost knobs: set<object>,
                     metadata: StringMap?, store: BoolCell?, cache: CacheCell?, ghost repr: set<object>)
      ensures model == from.model && stop == from.stop && user == from.user
      ensures this.messages == messages && this.settings == settings && this.knobs == knobs
      ensures this.metadata == metadata && this.store == store && this.cache == cache
      ensures Repr == {this} + repr
    {
      this.model, this.stop, this.user := from.model, from.stop, from.user;
      this.messages, this.settings, this.knobs := messages, settings, knobs;
      this.metadata, this.store, this.cache := metadata, store, cache;
      Repr := {this} + repr;
    }

    /** Messages and settings keep their values when nothing they are made of is written. */
    twostate lemma BodyKept()
      requires old(Valid()) && messages == old(messages) && settings == old(settings) && knobs == old(knobs)
      requires unchanged(knobs) && (messages != null ==> unchanged(messages) && unchanged(messages.cells))
      ensures ValidSlice(messages) && SettingsWithin(settings, knobs)
      ensures ConversationOf(messages) == old(ConversationOf(messages))
      ensures SettingsOf(settings, knobs) == old(SettingsOf(settings, knobs))
    {
    }

    /** Nothing reachable is written, so nothing changes. */
    twostate lemma Kept()
      requires old(Valid()) && unchanged(old(Repr)) && (stop != null ==> unchanged(stop))
      ensures Valid() && Value() == old(Value())
    {
    }

    twostate lemma StopWritten()
      requires old(Valid()) && unchanged(old(Repr))
      ensures Valid() && Value() == old(Value()).(stop := if stop == null then [] else stop[..])
    {
    }

    twostate lemma PointersKept(v: RequestV)
      requires unchanged(this) && unchanged(old(PointerCells(metadata, store, cache)))
      ensures PointerCells(metadata, store, cache) == old(PointerCells(metadata, store, cache))
      ensures Around(this, v) == old(Around(this, v))
    {
      assert cache != null ==> cache in old(PointerCells(metadata, store, cache));
    }

    /** Writing the pointers and the texts of messages gives the value one expects. */
    twostate lemma PartsWritten()
      requires old(Valid()) && messages == old(messages) && settings == old(settings) && knobs == old(knobs) && stop == old(stop)
      requires unchanged(old(Repr) - {this, old(cache)} - old(if messages == null then {} else messages.cells))
      requires (stop != null ==> unchanged(stop)) && ValidSlice(messages)
      requires fresh(PointerCells(metadata, store, cache) - old(PointerCells(metadata, store, cache)))
      requires Repr == old(Repr) + PointerCells(metadata, store, cache)
      ensures Valid() && fresh(Repr - old(Repr))
      ensures Value() == Around(this, old(Value())).(messages := ConversationOf(messages))
    {
      PointersFresh();
      SettingsKept();
    }

    twostate lemma SettingsKept()
      requires old(Valid()) && settings == old(settings) && knobs == old(knobs) && unchanged(knobs)
      ensures SettingsWithin(settings, knobs) && SettingsOf(settings, knobs) == old(SettingsOf(settings, knobs))
    {
    }

    twostate lemma PointersFresh()
      requires old(Valid()) && knobs == old(knobs) && stop == old(stop)
      requires fresh(PointerCells(metadata, store, cache) - old(PointerCells(metadata, store, cache)))
      requires Repr == old(Repr) + PointerCells(metadata, store, cache)
      ensures cache !in knobs && (stop != null ==> stop !in Repr) && fresh(Repr - old(Repr))
    {
      assert old(PointerCells(metadata, store, cache)) <= old(Repr);
    }

    method SetModel(name: string)
      requires Valid()
      modifies `model
      ensures Valid() && (old(Separate()) ==> Separate())
      ensures Value() == old(Value()).(model := name)
    {
      model := name;
      BodyKept();
    }
  }

  /** The pointers and maps of a request, copied. */
  method ClonePointers(req: Request) returns (metadata: StringMap?, store: BoolCell?, cache: CacheCell?)
    ensures fresh(PointerCells(metadata, store, cache))
    ensures MetadataOf(metadata) == MetadataOf(req.metadata) && BoolOf(store) == BoolOf(req.store) && CacheOf(cache) == CacheOf(req.cache)
  {
    metadata, store, cache := null, null, null;
    if req.metadata != null && req.metadata.entries.Keys != {} {
      metadata := new StringMap(req.metadata.entries);
    }
    if req.store != null {
      store := new BoolCell(req.store.value);
    }
    if req.cache != null {
      var control: ControlCell? := null;
      if req.cache.control != null {
        control := new ControlCell(req.cache.control.ttl);
      }
      cache := new CacheCell(req.cache.key, req.cache.retention, req.cache.cachedContent, control);
    }
    assert req.metadata != null && req.metadata.entries.Keys == {} ==> req.metadata.entries == map[];
  }

  /** The value of a request with these messages and settings for its own. */
  ghost function Instead(req: Request, messages: MessageSlice?, settings: Settings, knobs: set<object>): RequestV
    requires ValidSlice(messages) && SettingsWithin(settings, knobs)
    reads req, req.stop, req.cache, PointerCells(req.metadata, req.store, req.cache), messages, SliceCells(messages), knobs
  {
    RequestV(req.model, ConversationOf(messages), if req.stop == null then [] else req.stop[..],
             SettingsOf(settings, knobs), MetadataOf(req.metadata), BoolOf(req.store), CacheOf(req.cache), req.user)
  }

  /** The messages and settings of a request, copied. */
  method CloneParts(req: Request) returns (messages: MessageSlice?, settings: Settings, ghost knobs: set<object>)
    requires req.Valid()
    ensures ValidSlice(messages) && (messages != null ==> messages.Separate()) && fresh(SliceCells(messages))
    ensures SettingsWithin(settings, knobs) && fresh(knobs) && SliceCells(messages) !! knobs
    ensures ConversationOf(messages) == old(ConversationOf(req.messages))
    ensures SettingsOf(settings, knobs) == old(SettingsOf(req.settings, req.knobs))
  {
    messages := CloneMessages(req.messages);
    settings, knobs := CloneSettings(req.settings, req.knobs);
  }

  method CloneBodies(req: Request) returns (messages: MessageSlice?, settings: Settings, ghost knobs: set<object>)
    requires req.Valid()
    ensures ValidSlice(messages) && (messages != null ==> messages.Separate()) && fresh(SliceCells(messages))
    ensures SettingsWithin(settings, knobs) && fresh(knobs) && SliceCells(messages) !! knobs
    ensures Instead(req, messages, settings, knobs) == old(req.Value())
  {
    ghost var v := req.Value();
    messages, settings, knobs := CloneParts(req);
    assert MetadataOf(req.metadata) == v.metadata && BoolOf(req.store) == v.store && CacheOf(req.cache) == v.cache;
  }

  /** A struct copy around copied messages and settings, with copied pointers. */
  method Assemble(req: Request, messages: MessageSlice?, settings: Settings, ghost knobs: set<object>) returns (c: Request)
    requires ValidSlice(messages) && (messages != null ==> messages.Separate())
    requires SettingsWithin(settings, knobs) && SliceCells(messages) !! knobs
    requires req.stop != null ==> req.stop !in SliceCells(messages) + knobs
    ensures fresh(c) && fresh(c.Repr - SliceCells(messages) - knobs) && c.Valid() && c.Separate() && c.stop == req.stop
    ensures c.Value() == old(Instead(req, messages, settings, knobs))
  {
    var metadata, store, cache := ClonePointers(req);
    ghost var repr := SliceCells(messages) + knobs + PointerCells(metadata, store, cache);
    c := new Request.Copy(req, messages, settings, knobs, metadata, store, cache, repr);
  }

  method CloneOf(req: Request) returns (c: Request)
    requires req.Valid()
    ensures fresh(c) && fresh(c.Repr) && c.Valid() && c.Separate()
    ensures c.Value() == old(req.Value()) && c.stop == req.stop
  {
    var messages, settings, knobs := CloneBodies(req);
    c := Assemble(req, messages, settings, knobs);
  }

  /** The content blocks of unknown types. */
  ghost function Others(ms: seq<MessageV>): set<object> {
    set i, j | 0 <= i < |ms| && 0 <= j < |ms[i].content| && ms[i].content[j].OtherV? :: ms[i].content[j].o
  }

  /** What of a request a copy shares: stop sequences that can be written to, and the
      references of unknown types in messages, in the parameters of tools, among the options
      and in a response schema. */
  ghost function Exceptions(stop: array?<string>, v: RequestV): set<object> {
    (if stop != null && v.stop != [] then {stop} else {}) + Others(v.messages) + ForeignsIn(v.settings)
  }

  /** All that can be written to through a request. */
  ghost function Writable(r: Request): set<object>
    requires r.Valid()
    reads r, r.Repr, r.stop
  {
    r.Repr + Exceptions(r.stop, r.Value())
  }

  /** CloneRequest: the copy has the same value, and what it shares with the original is
      exactly the exceptions. */
  method CloneRequest(req: Request?) returns (c: Request)
    requires req != null ==> req.Valid()
    ensures fresh(c) && fresh(c.Repr) && c.Valid() && c.Separate()
    ensures c.Value() == if req == null then ZERO_REQUEST else old(req.Value())
    ensures req != null ==> c.stop == req.stop
    ensures req != null ==> Writable(c) * old(Writable(req)) == old(Exceptions(req.stop, req.Value()))
  {
    if req == null {
      c := new Request.Zero();
    } else {
      c := CloneOf(req);
    }
  }

  /** Requests of one value, as a request and its copy are, agree field by field. */
  lemma SameFields(a: Request, b: Request)
    requires a.Valid() && b.Valid() && a.Value() == b.Value()
    ensures a.model == b.model && a.user == b.user
    ensures (if a.stop == null then [] else a.stop[..]) == (if b.stop == null then [] else b.stop[..])
    ensures (if a.metadata == null then map[] else a.metadata.entries) == (if b.metadata == null then map[] else b.metadata.entries)
    ensures (a.store == null <==> b.store == null) && (a.store != null ==> a.store.value == b.store.value)
    ensures (a.cache == null <==> b.cache == null)
      && (a.cache != null ==>
            && a.cache.key == b.cache.key && a.cache.retention == b.cache.retention && a.cache.cachedContent == b.cache.cachedContent
            && (a.cache.control == null <==> b.cache.control == null)
            && (a.cache.control != null ==> a.cache.control.ttl == b.cache.control.ttl))
    ensures ConversationOf(a.messages) == ConversationOf(b.messages)
    ensures SettingsOf(a.settings, a.knobs) == SettingsOf(b.settings, b.knobs)
  {
    var v := a.Value();
    assert BoolOf(a.store) == v.store == BoolOf(b.store);
    assert CacheOf(a.cache) == v.cache == CacheOf(b.cache);
    assert MetadataOf(a.metadata) == v.metadata == MetadataOf(b.metadata);
  }

  lemma NoExceptions(stop: array?<string>, v: RequestV)
    requires v.stop != [] ==> stop != null
    ensures Exceptions(stop, v) == {} <==> Deep(v)
  {
    NoForeigns(v.settings);
    forall i, j | 0 <= i < |v.messages| && 0 <= j < |v.messages[i].content| && v.messages[i].content[j].OtherV?
      ensures v.messages[i].content[j].o in Others(v.messages)
    {
    }
  }

  /** No stop sequences, and no reference of an unknown type in a message or in any of the
      three places that hold nested values. */
  ghost predicate Deep(v: RequestV) {
    && v.stop == []
    && (forall i, j | 0 <= i < |v.messages| && 0 <= j < |v.messages[i].content| :: !v.messages[i].content[j].OtherV?)
    && (forall i | 0 <= i < |v.settings.tools| :: Foreigns(v.settings.tools[i].parameters) == {})
    && Foreigns(v.settings.options) == {}
    && (v.settings.format.Some? ==> Foreigns(v.settings.format.value.schema) == {})
  }

  /** A copy shares nothing if and only if that is so. */
  method SharesExactly(req: Request) returns (c: Request)
    requires req.Valid()
    ensures c.Valid() && c.Value() == old(req.Value())
    ensures Writable(c) !! old(Writable(req)) <==> Deep(old(req.Value()))
  {
    NoExceptions(req.stop, req.Value());
    ghost var before, shared := Writable(req), Exceptions(req.stop, req.Value());
    c := CloneRequest(req);
    assert Writable(c) * before == shared;
  }

  /** All exceptions are real. Writing to the stop sequences of a copy changes the
      original; a reference of an unknown type in a message, among the options, the parameters
      of a tool or a response schema is the same object in both. */
  method StopIsShared(req: Request, s: string)
    requires req.Valid() && req.stop != null && req.stop.Length > 0 && req.stop[0] != s
    modifies req.stop
    ensures req.Valid() && req.Value().stop != old(req.Value()).stop
  {
    var c := CloneRequest(req);
    c.stop[0] := s;
    req.StopWritten();
    assert req.stop[..][0] != old(req.stop[..])[0];
  }

  lemma BlockKept(m: MessageSlice, c: MessageSlice?, i: nat, j: nat)
    requires m.Valid() && ValidSlice(c) && ConversationOf(c) == m.Value() && i < |m.items|
    requires var a := m.items[i].content; a != null && j < a.Length && a[j].Other?
    ensures c != null && i < |c.items|
    ensures var a, b := m.items[i].content, c.items[i].content; b != null && j < b.Length && b[j] == a[j]
  {
    assert m.Value()[i] == MessageOf(m.items[i]) && MessageOf(m.items[i]).content[j] == BlockOf(m.items[i].content[j]);
    if c != null {
      assert c.Value()[i] == MessageOf(c.items[i]);
      var b := c.items[i].content;
      assert b != null ==> MessageOf(c.items[i]).content[j] == BlockOf(b[j]);
    }
  }

  method BlockIsShared(req: Request, i: nat, j: nat) returns (c: Request)
    requires req.Valid() && req.messages != null && i < |req.messages.items|
    requires var a := req.messages.items[i].content; a != null && j < a.Length && a[j].Other?
    ensures fresh(c) && c.Valid() && c.messages != null && i < |c.messages.items|
    ensures var a, b := req.messages.items[i].content, c.messages.items[i].content;
      b != null && b != a && j < b.Length && b[j] == a[j]
  {
    c := CloneRequest(req);
    assert req.Value().messages == c.Value().messages;
    BlockKept(req.messages, c.messages, i, j);
    assert c.messages.items[i].content in c.messages.cells;
  }

  method ForeignIsShared(req: Request, k: Key) returns (c: Request)
    requires req.Valid()
    requires var n := req.settings.options; n != null && k in n.kids && n.kids[k].Foreign?
    ensures fresh(c) && c.Valid() && c.settings.options != null && c.settings.options != req.settings.options
    ensures k in c.settings.options.kids && c.settings.options.kids[k] == req.settings.options.kids[k]
  {
    c := CloneRequest(req);
    assert req.Value().settings == c.Value().settings;
    ForeignKept(req.settings.options, c.settings.options, k);
  }

  method ToolForeignIsShared(req: Request, i: nat, k: Key) returns (c: Request)
    requires req.Valid() && req.settings.tools != null && i < |req.settings.tools.items|
    requires var n := req.settings.tools.items[i].parameters; n != null && k in n.kids && n.kids[k].Foreign?
    ensures fresh(c) && c.Valid() && c.settings.tools != null && i < |c.settings.tools.items|
    ensures var n, m := req.settings.tools.items[i].parameters, c.settings.tools.items[i].parameters;
      m != null && m != n && k in m.kids && m.kids[k] == n.kids[k]
  {
    c := CloneRequest(req);
    assert req.Value().settings == c.Value().settings;
    ToolKept(req.settings.tools, c.settings.tools, i, k);
  }

  method SchemaForeignIsShared(req: Request, k: Key) returns (c: Request)
    requires req.Valid() && req.settings.format != null
    requires var n := req.settings.format.schema; n != null && k in n.kids && n.kids[k].Foreign?
    ensures fresh(c) && c.Valid() && c.settings.format != null
    ensures var n, m := req.settings.format.schema, c.settings.format.schema;
      m != null && m != n && k in m.kids && m.kids[k] == n.kids[k]
  {
    c := CloneRequest(req);
    assert req.Value().settings == c.Value().settings;
    ForeignKept(req.settings.format.schema, c.settings.format.schema, k);
  }
}
