/** The fields of a request that neither the client nor a policy writes: tools, provider
    options, response format and the other knobs. */
module Settings {
  import opened Options
  import opened Trees
  import Text

  class BoolCell {
    var value: bool

    constructor (value: bool)
      ensures this.value == value
    {
      this.value := value;
    }
  }

  class IntCell {
    var value: int

    constructor (value: int)
      ensures this.value == value
    {
      this.value := value;
    }
  }

  class ControlCell {
    var ttl: string

    constructor (ttl: string)
      ensures this.ttl == ttl
    {
      this.ttl := ttl;
    }
  }

  class ReasoningCell {
    var effort: string
    var budget: int
    var thoughts: bool

    constructor (effort: string, budget: int, thoughts: bool)
      ensures this.effort == effort && this.budget == budget && this.thoughts == thoughts
    {
      this.effort, this.budget, this.thoughts := effort, budget, thoughts;
    }
  }

  class FormatCell {
    var typ: string
    var name: string
    var description: string
    var strict: bool
    var schema: Node?

    constructor (typ: string, name: string, description: string, strict: bool, schema: Node?)
      ensures this.typ == typ && this.name == name && this.description == description && this.strict == strict
      ensures this.schema == schema
    {
      this.typ, this.name, this.description, this.strict, this.schema := typ, name, description, strict, schema;
    }
  }

  datatype ReasoningV = ReasoningV(effort: string, budget: int, thoughts: bool)

  datatype FormatV = FormatV(typ: string, name: string, description: string, strict: bool, schema: Tree)

  // -------------------------------------------------------------------------- tools

  datatype Tool = Tool(typ: string, name: string, description: string, strict: bool, eager: bool,
                       parameters: Node?, control: ControlCell?)

  datatype ToolV = ToolV(typ: string, name: string, description: string, strict: bool, eager: bool,
                         parameters: Tree, control: Option<string>)

  function ControlOf(c: ControlCell?): Option<string>
    reads c
  {
    if c == null then None else Some(c.ttl)
  }

  function ToolOf(t: Tool): ToolV
    requires ValidMap(t.parameters)
    reads Cells(Ref(t.parameters)), t.control
  {
    ToolV(t.typ, t.name, t.description, t.strict, t.eager, TreeOf(Ref(t.parameters)), ControlOf(t.control))
  }

  /** Everything reachable from the tools lies in these sets. */
  ghost predicate ToolsWithin(ts: seq<Tool>, nodes: set<Node>, controls: set<ControlCell>)
    reads nodes
  {
    forall i | 0 <= i < |ts| ::
      && (ts[i].parameters != null ==> ts[i].parameters in nodes)
      && Cells(Ref(ts[i].parameters)) <= nodes && ValidMap(ts[i].parameters)
      && (ts[i].control != null ==> ts[i].control in controls)
  }

  ghost function ToolsOf(ts: seq<Tool>, nodes: set<Node>, controls: set<ControlCell>): (r: seq<ToolV>)
    requires ToolsWithin(ts, nodes, controls)
    reads nodes, controls
    ensures |r| == |ts| && forall i | 0 <= i < |ts| :: r[i] == ToolOf(ts[i])
  {
    seq(|ts|, i requires 0 <= i < |ts| && ToolsWithin(ts, nodes, controls) reads nodes, controls => ToolOf(ts[i]))
  }

  /** The backing array of a []Tool. */
  class ToolSlice {
    var items: seq<Tool>
    ghost var nodes: set<Node>
    ghost var controls: set<ControlCell>

    ghost predicate Valid()
      reads this, nodes
    {
      ToolsWithin(items, nodes, controls)
    }

    ghost function Value(): seq<ToolV>
      requires Valid()
      reads this, nodes, controls
    {
      ToolsOf(items, nodes, controls)
    }

    constructor (items: seq<Tool>, ghost nodes: set<Node>, ghost controls: set<ControlCell>)
      ensures this.items == items && this.nodes == nodes && this.controls == controls
    {
      this.items, this.nodes, this.controls := items, nodes, controls;
    }
  }

  /** The body of the loop of cloneTools. */
  method CloneTool(t: Tool, ghost v: ToolV) returns (c: Tool)
    requires ValidMap(t.parameters) && ToolOf(t) == v
    ensures ValidMap(c.parameters) && fresh(Cells(Ref(c.parameters))) && (c.control != null ==> fresh(c.control))
    ensures ToolOf(c) == v
  {
    var control: ControlCell? := null;
    if t.control != null {
      control := new ControlCell(t.control.ttl);
    }
    var parameters := CloneMap(t.parameters);
    c := t.(parameters := parameters, control := control);
  }

  method CloneToolItems(ts: seq<Tool>, ghost nodes: set<Node>, ghost controls: set<ControlCell>)
      returns (copies: seq<Tool>, ghost ns: set<Node>, ghost cs: set<ControlCell>)
    requires ToolsWithin(ts, nodes, controls)
    ensures fresh(ns) && fresh(cs) && ToolsWithin(copies, ns, cs)
    ensures ToolsOf(copies, ns, cs) == old(ToolsOf(ts, nodes, controls))
  {
    ghost var vs := ToolsOf(ts, nodes, controls);
    copies, ns, cs := [], {}, {};
    for i := 0 to |ts|
      invariant fresh(ns) && fresh(cs) && ToolsWithin(copies, ns, cs)
      invariant ToolsWithin(ts, nodes, controls) && ToolsOf(ts, nodes, controls) == vs
      invariant ToolsOf(copies, ns, cs) == vs[..i]
    {
      assert ToolOf(ts[i]) == vs[i];
      var c := CloneTool(ts[i], vs[i]);
      copies := copies + [c];
      ns := ns + Cells(Ref(c.parameters));
      cs := cs + if c.control == null then {} else {c.control};
      assert vs[..i + 1] == vs[..i] + [vs[i]];
    }
  }

  ghost function ToolCells(t: ToolSlice?): set<object>
    reads t
  {
    if t == null then {} else {t} + t.nodes + t.controls
  }

  ghost predicate ValidTools(t: ToolSlice?)
    reads t, ToolCells(t)
  {
    t != null ==> t.Valid()
  }

  ghost function ToolsIn(t: ToolSlice?): seq<ToolV>
    requires ValidTools(t)
    reads t, ToolCells(t)
  {
    if t == null then [] else t.Value()
  }

  /** cloneTools. */
  method CloneTools(src: ToolSlice?) returns (dst: ToolSlice?)
    requires ValidTools(src)
    ensures ValidTools(dst) && fresh(ToolCells(dst)) && ToolsIn(dst) == old(ToolsIn(src))
  {
    if src == null || src.items == [] {
      return null;
    }
    var copies, ns, cs := CloneToolItems(src.items, src.nodes, src.controls);
    dst := new ToolSlice(copies, ns, cs);
  }

  /** Tools of the same value hold the same references of unknown types in their parameters. */
  lemma ToolKept(ts: ToolSlice, cs: ToolSlice?, i: nat, k: Key)
    requires ValidTools(ts) && ValidTools(cs) && ToolsIn(cs) == ToolsIn(ts) && i < |ts.items|
    requires var n := ts.items[i].parameters; n != null && k in n.kids && n.kids[k].Foreign?
    ensures cs != null && i < |cs.items|
    ensures var n, m := ts.items[i].parameters, cs.items[i].parameters;
      m != null && k in m.kids && m.kids[k] == n.kids[k]
  {
    assert ToolOf(ts.items[i]) == ToolsIn(ts)[i];
    assert ToolOf(cs.items[i]) == ToolsIn(cs)[i];
    ForeignKept(ts.items[i].parameters, cs.items[i].parameters, k);
  }

  // -------------------------------------------------------------- all the settings

  /** The plain fields: a struct copy copies them. */
  datatype Plain = Plain(maxTokens: int, maxOutputTokens: int, temperature: real, topP: real, stream: bool, toolChoice: string)

  datatype Settings = Settings(plain: Plain, tools: ToolSlice?, options: Node?, format: FormatCell?,
                               seed: IntCell?, reasoning: ReasoningCell?, parallel: BoolCell?)

  datatype SettingsV = SettingsV(plain: Plain, tools: seq<ToolV>, options: Tree, format: Option<FormatV>,
                                 seed: Option<int>, reasoning: Option<ReasoningV>, parallel: Option<bool>)

  const ZERO_SETTINGS := Settings(Plain(0, 0, 0.0, 0.0, false, ""), null, null, null, null, null, null)

  const ZERO_SETTINGS_VALUE := SettingsV(Plain(0, 0, 0.0, 0.0, false, ""), [], Branch(Map, map[]), None, None, None, None)

  ghost function FormatCells(f: FormatCell?): set<object>
    reads f, if f == null then null else f.schema
  {
    if f == null then {} else {f} + Cells(Ref(f.schema))
  }

  ghost predicate ValidFormat(f: FormatCell?)
    reads f, if f == null then null else f.schema, FormatCells(f)
  {
    f != null ==> ValidMap(f.schema)
  }

  function FormatOf(f: FormatCell?): Option<FormatV>
    requires ValidFormat(f)
    reads f, if f == null then null else f.schema, FormatCells(f)
  {
    if f == null then None else Some(FormatV(f.typ, f.name, f.description, f.strict, TreeOf(Ref(f.schema))))
  }

  ghost function KnobCells(s: Settings): set<object> {
    (if s.seed == null then {} else {s.seed})
    + (if s.reasoning == null then {} else {s.reasoning})
    + (if s.parallel == null then {} else {s.parallel})
  }

  function SeedOf(c: IntCell?): Option<int>
    reads c
  {
    if c == null then None else Some(c.value)
  }

  function ReasoningOf(c: ReasoningCell?): Option<ReasoningV>
    reads c
  {
    if c == null then None else Some(ReasoningV(c.effort, c.budget, c.thoughts))
  }

  function BoolOf(c: BoolCell?): Option<bool>
    reads c
  {
    if c == null then None else Some(c.value)
  }

  /** Everything reachable from the settings lies in `cells`. */
  ghost predicate SettingsWithin(s: Settings, cells: set<object>)
    reads cells
  {
    && (s.tools != null ==> s.tools in cells && ToolCells(s.tools) <= cells && ValidTools(s.tools))
    && (s.options != null ==> s.options in cells && Cells(Ref(s.options)) <= cells && ValidMap(s.options))
    && (s.format != null ==> s.format in cells && (s.format.schema != null ==> s.format.schema in cells)
                             && FormatCells(s.format) <= cells && ValidFormat(s.format))
    && KnobCells(s) <= cells
  }

  ghost function SettingsOf(s: Settings, cells: set<object>): SettingsV
    requires SettingsWithin(s, cells)
    reads cells
  {
    SettingsV(s.plain, ToolsIn(s.tools), TreeOf(Ref(s.options)), FormatOf(s.format),
              SeedOf(s.seed), ReasoningOf(s.reasoning), BoolOf(s.parallel))
  }

  ghost function SettingsCells(s: Settings): set<object>
    reads s.tools, s.options, s.format, if s.format == null then null else s.format.schema
  {
    ToolCells(s.tools) + Cells(Ref(s.options)) + FormatCells(s.format) + KnobCells(s)
  }

  lemma ExactlyWithin(s: Settings)
    requires ValidTools(s.tools) && ValidMap(s.options) && ValidFormat(s.format)
    ensures SettingsWithin(s, SettingsCells(s))
    ensures SettingsOf(s, SettingsCells(s)) ==
      SettingsV(s.plain, ToolsIn(s.tools), TreeOf(Ref(s.options)), FormatOf(s.format),
                SeedOf(s.seed), ReasoningOf(s.reasoning), BoolOf(s.parallel))
  {
  }

  method CloneFormat(f: FormatCell?) returns (c: FormatCell?)
    requires ValidFormat(f)
    ensures ValidFormat(c) && fresh(FormatCells(c)) && FormatOf(c) == old(FormatOf(f))
  {
    if f == null {
      return null;
    }
    ghost var v := FormatOf(f);
    var schema := CloneMap(f.schema);
    c := new FormatCell(f.typ, f.name, f.description, f.strict, schema);
  }

  method CloneKnobs(s: Settings) returns (seed: IntCell?, reasoning: ReasoningCell?, parallel: BoolCell?)
    ensures fresh(KnobCells(s.(seed := seed, reasoning := reasoning, parallel := parallel)))
    ensures SeedOf(seed) == SeedOf(s.seed) && ReasoningOf(reasoning) == ReasoningOf(s.reasoning) && BoolOf(parallel) == BoolOf(s.parallel)
  {
    seed, reasoning, parallel := null, null, null;
    if s.seed != null {
      seed := new IntCell(s.seed.value);
    }
    if s.reasoning != null {
      reasoning := new ReasoningCell(s.reasoning.effort, s.reasoning.budget, s.reasoning.thoughts);
    }
    if s.parallel != null {
      parallel := new BoolCell(s.parallel.value);
    }
  }

  // In the following methods v is the value of the settings when the call begins.

  method CloneTrees(s: Settings, ghost from: set<object>, ghost v: SettingsV) returns (tools: ToolSlice?, options: Node?)
    requires SettingsWithin(s, from) && SettingsOf(s, from) == v
    ensures ValidTools(tools) && ValidMap(options) && fresh(ToolCells(tools)) && fresh(Cells(Ref(options)))
    ensures ToolsIn(tools) == v.tools && TreeOf(Ref(options)) == v.options
  {
    tools := CloneTools(s.tools);
    options := CloneMap(s.options);
  }

  method CloneNested(s: Settings, ghost from: set<object>, ghost v: SettingsV)
      returns (tools: ToolSlice?, options: Node?, format: FormatCell?)
    requires SettingsWithin(s, from) && SettingsOf(s, from) == v
    ensures ValidTools(tools) && ValidMap(options) && fresh(ToolCells(tools)) && fresh(Cells(Ref(options)))
    ensures ValidFormat(format) && fresh(FormatCells(format))
    ensures ToolsIn(tools) == v.tools && TreeOf(Ref(options)) == v.options && FormatOf(format) == v.format
  {
    format := CloneFormat(s.format);
    assert FormatOf(format) == v.format;
    tools, options := CloneTrees(s, from, v);
    assert ValidFormat(format) && FormatOf(format) == v.format;
  }

  /** The part of CloneRequest for these fields. */
  method CloneSettings(s: Settings, ghost from: set<object>) returns (c: Settings, ghost cells: set<object>)
    requires SettingsWithin(s, from)
    ensures fresh(cells) && SettingsWithin(c, cells) && SettingsOf(c, cells) == old(SettingsOf(s, from))
  {
    ghost var v := SettingsOf(s, from);
    var seed, reasoning, parallel := CloneKnobs(s);
    var tools, options, format := CloneNested(s, from, v);
    c := Settings(s.plain, tools, options, format, seed, reasoning, parallel);
    cells := SettingsCells(c);
    ExactlyWithin(c);
  }

  /** The references of unknown types among the settings: in the parameters of tools, the
      provider options and a response schema. */
  ghost function ForeignsIn(v: SettingsV): set<object> {
    (set i, o | 0 <= i < |v.tools| && o in Foreigns(v.tools[i].parameters) :: o)
    + Foreigns(v.options)
    + (if v.format.Some? then Foreigns(v.format.value.schema) else {})
  }

  lemma NoForeigns(v: SettingsV)
    ensures ForeignsIn(v) == {} <==>
      && (forall i | 0 <= i < |v.tools| :: Foreigns(v.tools[i].parameters) == {})
      && Foreigns(v.options) == {}
      && (v.format.Some? ==> Foreigns(v.format.value.schema) == {})
  {
    forall i, o | 0 <= i < |v.tools| && o in Foreigns(v.tools[i].parameters) ensures o in ForeignsIn(v) {
    }
  }

  /** Tools of one value agree field by field. */
  lemma SameTools(a: ToolSlice?, b: ToolSlice?)
    requires ValidTools(a) && ValidTools(b) && ToolsIn(a) == ToolsIn(b)
    ensures var xs, ys := if a == null then [] else a.items, if b == null then [] else b.items;
      |xs| == |ys| && forall i | 0 <= i < |xs| ::
        && xs[i].(parameters := null, control := null) == ys[i].(parameters := null, control := null)
        && ValidMap(xs[i].parameters) && ValidMap(ys[i].parameters)
        && TreeOf(Ref(xs[i].parameters)) == TreeOf(Ref(ys[i].parameters))
        && (xs[i].control == null <==> ys[i].control == null)
        && (xs[i].control != null ==> xs[i].control.ttl == ys[i].control.ttl)
  {
    var xs, ys := if a == null then [] else a.items, if b == null then [] else b.items;
    forall i | 0 <= i < |xs| ensures ToolOf(xs[i]) == ToolOf(ys[i]) {
      assert ToolOf(xs[i]) == ToolsIn(a)[i] == ToolsIn(b)[i];
    }
  }

  /** Settings of one value agree field by field. */
  lemma SameSettings(a: Settings, cells: set<object>, b: Settings, others: set<object>)
    requires SettingsWithin(a, cells) && SettingsWithin(b, others) && SettingsOf(a, cells) == SettingsOf(b, others)
    ensures a.plain == b.plain && ToolsIn(a.tools) == ToolsIn(b.tools) && TreeOf(Ref(a.options)) == TreeOf(Ref(b.options))
    ensures (a.format == null <==> b.format == null)
      && (a.format != null ==>
            && a.format.typ == b.format.typ && a.format.name == b.format.name && a.format.description == b.format.description
            && a.format.strict == b.format.strict && TreeOf(Ref(a.format.schema)) == TreeOf(Ref(b.format.schema)))
    ensures (a.seed == null <==> b.seed == null) && (a.seed != null ==> a.seed.value == b.seed.value)
    ensures (a.parallel == null <==> b.parallel == null) && (a.parallel != null ==> a.parallel.value == b.parallel.value)
    ensures (a.reasoning == null <==> b.reasoning == null)
      && (a.reasoning != null ==>
            a.reasoning.effort == b.reasoning.effort && a.reasoning.budget == b.reasoning.budget && a.reasoning.thoughts == b.reasoning.thoughts)
  {
  }

  // -------------------------------------------------------------------------- sizes

  /** ToolSchemaBytes, for one tool. */
  ghost function ToolBytes(t: ToolV, show: Tree -> nat): nat {
    Text.Bytes(t.typ) + Text.Bytes(t.name) + Text.Bytes(t.description) + Size(t.parameters, show)
  }

  ghost function SchemaSize(ts: seq<ToolV>, show: Tree -> nat): nat {
    if ts == [] then 0 else SchemaSize(ts[..|ts| - 1], show) + ToolBytes(ts[|ts| - 1], show)
  }

  lemma SchemaGrows(ts: seq<ToolV>, t: ToolV, show: Tree -> nat)
    ensures SchemaSize([], show) == 0
    ensures SchemaSize(ts + [t], show) ==
      SchemaSize(ts, show) + Text.Bytes(t.typ) + Text.Bytes(t.name) + Text.Bytes(t.description) + Size(t.parameters, show)
  {
    assert (ts + [t])[..|ts|] == ts;
  }

  /** ToolSchemaBytes. */
  method ToolSchemaBytes(ts: ToolSlice?, show: Tree -> nat) returns (count: nat, total: nat)
    requires ValidTools(ts)
    ensures count == |ToolsIn(ts)| && total == SchemaSize(ToolsIn(ts), show)
  {
    count, total := 0, 0;
    if ts != null {
      count := |ts.items|;
      ghost var vs := ts.Value();
      for i := 0 to count
        invariant ts.Valid() && ts.Value() == vs && total == SchemaSize(vs[..i], show)
      {
        var t := ts.items[i];
        assert vs[..i + 1][..i] == vs[..i] && ToolOf(t) == vs[i];
        var n := AnySize(TreeOf(Ref(t.parameters)), show);
        total := total + Text.Bytes(t.typ) + Text.Bytes(t.name) + Text.Bytes(t.description) + n;
      }
      assert vs[..count] == vs;
    }
  }
}
