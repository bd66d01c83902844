/** Nested values of type any as they lie in memory: their copy in request_clone.go and
    their size in request_limits.go. */
module Trees {
  import Text

  datatype Key = Name(name: string) | Index(index: nat)

  /** The types the copier and the sizer tell apart: map[string]any, []any, []string and
      []map[string]any. */
  datatype Kind = Map | AnyList | StringList | MapList

  /** A value of type any. A scalar is what it prints as; `Ref` is a map or slice (nil for
      an empty map's copy); `Foreign` is a reference of any type cloneAny does not know. */
  datatype Any = Scalar(text: string) | Ref(node: Node?) | Foreign(o: object)

  datatype Tree = Leaf(text: string) | Branch(kind: Kind, kids: map<Key, Tree>) | Shared(o: object)

  /** A map, or the backing array of a slice. */
  class Node {
    const kind: Kind
    var kids: map<Key, Any>
    ghost var Repr: set<Node>

    ghost predicate Valid()
      reads this, Repr
      decreases Repr
    {
      && this in Repr
      && forall k | k in kids && kids[k].Ref? && kids[k].node != null ::
           var n := kids[k].node;
           n in Repr && n.Repr <= Repr && this !in n.Repr && n.Valid()
    }

    function Value(): Tree
      requires Valid()
      reads this, Repr
      decreases Repr, 0
    {
      Branch(kind, map k | k in kids :: TreeOf(kids[k]))
    }

    constructor (kind: Kind, kids: map<Key, Any>, ghost repr: set<Node>)
      requires forall k | k in kids :: Cells(kids[k]) <= repr && ValidAny(kids[k])
      ensures this.kind == kind && this.kids == kids && Repr == {this} + repr
      ensures Valid()
      ensures forall k | k in kids :: TreeOf(kids[k]) == old(TreeOf(kids[k]))
    {
      this.kind := kind;
      this.kids := kids;
      Repr := {this} + repr;
    }
  }

  ghost function Cells(a: Any): set<Node>
    reads if a.Ref? && a.node != null then {a.node} else {}
  {
    if a.Ref? && a.node != null then {a.node} + a.node.Repr else {}
  }

  ghost predicate ValidAny(a: Any)
    reads Cells(a)
  {
    a.Ref? && a.node != null ==> a.node.Valid()
  }

  function TreeOf(a: Any): Tree
    requires ValidAny(a)
    reads Cells(a)
    decreases if a.Ref? && a.node != null then a.node.Repr else {}, 1
  {
    match a
    case Scalar(text) => Leaf(text)
    case Foreign(o) => Shared(o)
    case Ref(n) => if n == null then Branch(Map, map[]) else n.Value()
  }

  lemma KidsOf(n: Node)
    requires n.Valid()
    ensures var t := TreeOf(Ref(n));
      t.Branch? && t.kind == n.kind && t.kids.Keys == n.kids.Keys
      && forall k | k in n.kids :: ValidAny(n.kids[k]) && t.kids[k] == TreeOf(n.kids[k])
  {
  }

  // ------------------------------------------------------------------------ copying

  /** cloneAny: a copy made of new objects that has the same value; references of
      unknown types are handed over as they are. */
  method CloneAny(a: Any) returns (c: Any)
    requires ValidAny(a)
    ensures ValidAny(c) && fresh(Cells(c)) && TreeOf(c) == TreeOf(a)
    decreases Cells(a), 2
  {
    match a
    case Scalar(_) => c := a;
    case Foreign(_) => c := a;
    case Ref(n) =>
      if n == null || (n.kind == Map && n.kids.Keys == {}) {
        c := Ref(null);
        assert n != null ==> n.Value().kids == map[];
      } else {
        var d := CloneNode(n);
        c := Ref(d);
      }
  }

  lemma SameValue(n: Node, c: Node)
    requires n.Valid() && c.Valid() && n.kind == c.kind && n.kids.Keys == c.kids.Keys
    requires forall k | k in n.kids :: ValidAny(n.kids[k]) && ValidAny(c.kids[k]) && TreeOf(n.kids[k]) == TreeOf(c.kids[k])
    ensures n.Value() == c.Value()
  {
  }

  /** The loops of cloneAnyMap and of the slice cases. */
  method CloneKids(n: Node) returns (dst: map<Key, Any>, ghost repr: set<Node>)
    requires n.Valid()
    ensures fresh(repr) && dst.Keys == n.kids.Keys
    ensures forall k | k in dst :: Cells(dst[k]) <= repr && ValidAny(dst[k]) && TreeOf(dst[k]) == TreeOf(n.kids[k])
    decreases n.Repr, 0
  {
    var todo := n.kids.Keys;
    dst, repr := map[], {};
    while todo != {}
      invariant todo <= n.kids.Keys && dst.Keys == n.kids.Keys - todo
      invariant fresh(repr)
      invariant forall k | k in dst :: Cells(dst[k]) <= repr && ValidAny(dst[k]) && TreeOf(dst[k]) == TreeOf(n.kids[k])
      decreases todo
    {
      var k :| k in todo;
      var v := CloneAny(n.kids[k]);
      dst := dst[k := v];
      repr := repr + Cells(v);
      todo := todo - {k};
    }
  }

  method CloneNode(n: Node) returns (c: Node)
    requires n.Valid()
    ensures c.Valid() && fresh(c) && fresh(c.Repr) && c.Value() == n.Value()
    decreases n.Repr, 1
  {
    var dst, repr := CloneKids(n);
    c := new Node(n.kind, dst, repr);
    SameValue(n, c);
  }

  /** A map[string]any, perhaps nil. */
  ghost predicate ValidMap(n: Node?)
    reads Cells(Ref(n))
  {
    n != null ==> n.Valid() && n.kind == Map
  }

  /** cloneAnyMap. */
  method CloneMap(n: Node?) returns (c: Node?)
    requires ValidMap(n)
    ensures ValidMap(c) && fresh(Cells(Ref(c))) && TreeOf(Ref(c)) == old(TreeOf(Ref(n)))
  {
    ghost var t := TreeOf(Ref(n));
    var a := CloneAny(Ref(n));
    assert TreeOf(a) == t && t.Branch?;
    c := a.node;
  }

  /** The references of unknown types inside a value. */
  ghost function Foreigns(t: Tree): set<object> {
    match t
    case Leaf(_) => {}
    case Shared(o) => {o}
    case Branch(_, kids) => set k, o | k in kids && o in Foreigns(kids[k]) :: o
  }

  lemma SameForeign(a: Any, o: object)
    requires ValidAny(a) && TreeOf(a) == Shared(o)
    ensures a == Foreign(o)
  {
  }

  /** Values of one tree are of one kind, and hold the same. */
  lemma SameAny(a: Any, b: Any)
    requires ValidAny(a) && ValidAny(b) && TreeOf(a) == TreeOf(b)
    ensures a.Scalar? || b.Scalar? || a.Foreign? || b.Foreign? ==> a == b
    ensures a.Ref? && a.node != null && b.Ref? && b.node != null ==>
      && a.node.kind == b.node.kind && a.node.kids.Keys == b.node.kids.Keys
      && forall k | k in a.node.kids ::
           ValidAny(a.node.kids[k]) && ValidAny(b.node.kids[k]) && TreeOf(a.node.kids[k]) == TreeOf(b.node.kids[k])
  {
    if a.Ref? && a.node != null && b.Ref? && b.node != null {
      KidsOf(a.node);
      KidsOf(b.node);
    }
  }

  /** A map and a copy of it hold the same references of unknown types. */
  lemma ForeignKept(n: Node, c: Node?, k: Key)
    requires n.Valid() && k in n.kids && n.kids[k].Foreign? && ValidMap(c) && TreeOf(Ref(c)) == TreeOf(Ref(n))
    ensures c != null && k in c.kids && c.kids[k] == n.kids[k]
  {
    KidsOf(n);
    assert k in TreeOf(Ref(n)).kids;
    if c != null {
      KidsOf(c);
      SameForeign(c.kids[k], n.kids[k].o);
    }
  }

  // ------------------------------------------------------------------------- sizes

  ghost function Pick(sizes: map<Key, nat>): (k: Key)
    requires |sizes| > 0
    ensures k in sizes
  {
    var k :| k in sizes;
    k
  }

  ghost function SumOf(sizes: map<Key, nat>): nat {
    if |sizes| == 0 then 0 else sizes[Pick(sizes)] + SumOf(sizes - {Pick(sizes)})
  }

  lemma Commute(sizes: map<Key, nat>, k: Key, y: Key)
    requires k in sizes && y in sizes && k != y
    ensures sizes - {y} - {k} == sizes - {k} - {y}
    ensures k in sizes - {y} && (sizes - {y})[k] == sizes[k] && |sizes - {y}| < |sizes|
    ensures y in sizes - {k} && (sizes - {k})[y] == sizes[y] && |sizes - {k}| < |sizes|
  {
  }

  /** The order in which a map is walked makes no difference. */
  lemma {:induction false} SumRemove(sizes: map<Key, nat>, k: Key)
    requires k in sizes
    ensures SumOf(sizes) == sizes[k] + SumOf(sizes - {k})
    decreases |sizes|
  {
    var y := Pick(sizes);
    if y != k {
      Commute(sizes, k, y);
      SumRemove(sizes - {y}, k);
      SumRemove(sizes - {k}, y);
    }
  }

  function KeyBytes(k: Key): nat {
    match k
    case Name(name) => Text.Bytes(name)
    case Index(_) => 0
  }

  /** What anySize adds for one entry of a map or slice, given the size of its value. */
  function EntrySize(kind: Kind, k: Key, size: nat): nat {
    match kind
    case Map => KeyBytes(k) + size + 4
    case AnyList => size + 1
    case StringList => size + 3
    case MapList => 0
  }

  ghost function Sizes(t: Tree, show: Tree -> nat): map<Key, nat>
    requires t.Branch?
    decreases t, 0
  {
    map k | k in t.kids :: EntrySize(t.kind, k, Size(t.kids[k], show))
  }

  /** What anySize gives; show is the length of what fmt.Sprint prints. */
  ghost function Size(t: Tree, show: Tree -> nat): nat
    decreases t, 1
  {
    match t
    case Leaf(text) => Text.Bytes(text)
    case Shared(_) => show(t)
    case Branch(kind, _) =>
      if kind == MapList then show(t)
      else
        var sum := SumOf(Sizes(t, show));
        if kind != StringList then 2 + sum else if sum == 0 then 0 else sum - 1
  }

  lemma SizesWith(kind: Kind, kids: map<Key, Tree>, k: Key, t: Tree, show: Tree -> nat)
    requires k !in kids
    ensures SumOf(Sizes(Branch(kind, kids[k := t]), show)) == SumOf(Sizes(Branch(kind, kids), show)) + EntrySize(kind, k, Size(t, show))
  {
    var more := Sizes(Branch(kind, kids[k := t]), show);
    SumRemove(more, k);
    assert more - {k} == Sizes(Branch(kind, kids), show);
  }

  /** The size of a map starts at 2 and grows with every entry by its key, its value and 4. */
  lemma MapGrows(kids: map<Key, Tree>, name: string, t: Tree, show: Tree -> nat)
    requires Name(name) !in kids
    ensures Size(Branch(Map, map[]), show) == 2
    ensures Size(Branch(Map, kids[Name(name) := t]), show) == Size(Branch(Map, kids), show) + Text.Bytes(name) + Size(t, show) + 4
  {
    SizesEmpty(Map, show);
    SizesWith(Map, kids, Name(name), t, show);
  }

  /** That of a list starts at 2 and grows by the value and 1. */
  lemma ListGrows(kids: map<Key, Tree>, k: Key, t: Tree, show: Tree -> nat)
    requires k !in kids
    ensures Size(Branch(AnyList, map[]), show) == 2
    ensures Size(Branch(AnyList, kids[k := t]), show) == Size(Branch(AnyList, kids), show) + Size(t, show) + 1
  {
    SizesEmpty(AnyList, show);
    SizesWith(AnyList, kids, k, t, show);
  }

  /** Strings count as joined by commas, and two bytes more for each. */
  lemma StringsGrow(kids: map<Key, Tree>, k: Key, t: Tree, show: Tree -> nat)
    requires k !in kids
    ensures Size(Branch(StringList, map[]), show) == 0
    ensures Size(Branch(StringList, kids[k := t]), show) ==
      Size(Branch(StringList, kids), show) + Size(t, show) + 2 + if kids == map[] then 0 else 1
  {
    SizesEmpty(StringList, show);
    SizesWith(StringList, kids, k, t, show);
    if kids != map[] {
      var x :| x in kids;
      SumRemove(Sizes(Branch(StringList, kids), show), x);
    }
  }

  lemma SizesEmpty(kind: Kind, show: Tree -> nat)
    ensures SumOf(Sizes(Branch(kind, map[]), show)) == 0
  {
    assert Sizes(Branch(kind, map[]), show) == map[];
  }

  /** What is no map and no list counts as it is printed. */
  lemma SizeOfOthers(t: Tree, show: Tree -> nat)
    ensures t.Leaf? ==> Size(t, show) == Text.Bytes(t.text)
    ensures t.Shared? || (t.Branch? && t.kind == MapList) ==> Size(t, show) == show(t)
  {
  }

  function Among(sizes: map<Key, nat>, keys: set<Key>): map<Key, nat> {
    map k | k in sizes && k in keys :: sizes[k]
  }

  lemma AmongStep(sizes: map<Key, nat>, keys: set<Key>, k: Key)
    requires k in keys && k in sizes
    ensures SumOf(Among(sizes, keys)) == sizes[k] + SumOf(Among(sizes, keys - {k}))
  {
    SumRemove(Among(sizes, keys), k);
    assert Among(sizes, keys) - {k} == Among(sizes, keys - {k});
  }

  lemma AmongEnds(sizes: map<Key, nat>, keys: set<Key>)
    requires keys == sizes.Keys
    ensures Among(sizes, keys) == sizes && SumOf(Among(sizes, {})) == 0
  {
    assert Among(sizes, {}) == map[];
  }

  /** anySize, which only reads: so of the value alone. */
  method AnySize(t: Tree, show: Tree -> nat) returns (n: nat)
    ensures n == Size(t, show)
    decreases t, 1
  {
    match t
    case Leaf(text) => n := Text.Bytes(text);
    case Shared(_) => n := show(t);
    case Branch(kind, _) =>
      if kind == MapList {
        n := show(t);
      } else {
        n := EntrySizes(t, show);
        n := if kind != StringList then 2 + n else if n == 0 then 0 else n - 1;
      }
  }

  /** Its loops, over the entries in any order. */
  method EntrySizes(t: Tree, show: Tree -> nat) returns (total: nat)
    requires t.Branch?
    ensures total == SumOf(Sizes(t, show))
    decreases t, 0
  {
    ghost var sizes := Sizes(t, show);
    var todo := t.kids.Keys;
    assert sizes.Keys == todo;
    AmongEnds(sizes, todo);
    total := 0;
    while todo != {}
      invariant todo <= t.kids.Keys
      invariant total + SumOf(Among(sizes, todo)) == SumOf(sizes)
      decreases todo
    {
      var k :| k in todo;
      var n := AnySize(t.kids[k], show);
      AmongStep(sizes, todo, k);
      total := total + EntrySize(t.kind, k, n);
      todo := todo - {k};
    }
  }
}
