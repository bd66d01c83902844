/** Strings as sequences of runes, with the library functions the policies use. */
module Text {
  import Sequences

  /** The bytes a rune takes in UTF-8. */
  function RuneBytes(c: char): nat {
    var n := c as int;
    if n < 0x80 then 1 else if n < 0x800 then 2 else if n < 0x10000 then 3 else 4
  }

  function Bytes(s: string): nat {
    if s == "" then 0 else RuneBytes(s[0]) + Bytes(s[1..])
  }

  /** Sizes add up; a rune of ASCII counts as one, any other as two to four. */
  lemma {:induction false} BytesAppend(a: string, b: string)
    ensures Bytes(a + b) == Bytes(a) + Bytes(b)
  {
    if a == "" {
      Sequences.Unit(b);
    } else {
      Sequences.AppendTail(a, b);
      BytesAppend(a[1..], b);
    }
  }

  lemma BytesOfRune(c: char)
    ensures Bytes([c]) == if c as int < 128 then 1 else if c as int < 2048 then 2 else if c as int < 65536 then 3 else 4
  {
  }

  /** unicode.IsSpace. */
  predicate IsSpace(c: char) {
    var n := c as int;
    9 <= n <= 13 || n in {0x20, 0x85, 0xA0, 0x1680, 0x2028, 0x2029, 0x202F, 0x205F, 0x3000} || 0x2000 <= n <= 0x200A
  }

  function TrimLeft(s: string, cut: char -> bool): (r: string)
    ensures r != "" ==> !cut(r[0])
    ensures forall c | c in r :: c in s
  {
    if s != "" && cut(s[0]) then TrimLeft(s[1..], cut) else s
  }

  function TrimRight(s: string, cut: char -> bool): (r: string)
    ensures r <= s && (forall i | |r| <= i < |s| :: cut(s[i]))
    ensures r != "" ==> !cut(r[|r| - 1])
    ensures forall c | c in r :: c in s
  {
    if s != "" && cut(s[|s| - 1]) then TrimRight(s[..|s| - 1], cut) else s
  }

  function Trim(s: string, cut: char -> bool): (r: string)
    ensures r != "" ==> !cut(r[0]) && !cut(r[|r| - 1])
    ensures forall c | c in r :: c in s
  {
    TrimRight(TrimLeft(s, cut), cut)
  }

  function TrimSpace(s: string): string {
    Trim(s, IsSpace)
  }

  /** Nothing is trimmed from a text with clean ends. */
  lemma TrimNothing(s: string, cut: char -> bool)
    requires s != "" ==> !cut(s[0]) && !cut(s[|s| - 1])
    ensures Trim(s, cut) == s
  {
  }

  /** Exactly the runes at both ends that are to be cut go. */
  lemma TrimExactly(x: string, core: string, y: string, cut: char -> bool)
    requires (forall c | c in x :: cut(c)) && (forall c | c in y :: cut(c))
    requires core != "" ==> !cut(core[0]) && !cut(core[|core| - 1])
    ensures Trim(x + core + y, cut) == core
  {
    TrimLeftOf(x, core + y, cut);
    Sequences.Assoc(x, core, y);
    if core == "" {
      TrimLeftOf(y, "", cut);
      Sequences.Unit(y);
    } else {
      TrimRightOf(core, y, cut);
    }
  }

  lemma {:induction false} TrimLeftOf(x: string, s: string, cut: char -> bool)
    requires forall c | c in x :: cut(c)
    ensures TrimLeft(x + s, cut) == TrimLeft(s, cut)
  {
    if x == "" {
      Sequences.Unit(s);
    } else {
      Sequences.AppendTail(x, s);
      assert x[0] in x;
      TrimLeftOf(x[1..], s, cut);
    }
  }

  lemma {:induction false} TrimRightOf(s: string, y: string, cut: char -> bool)
    requires (forall c | c in y :: cut(c)) && s != "" && !cut(s[|s| - 1])
    ensures TrimRight(s + y, cut) == s
  {
    if y != "" {
      var n := |y| - 1;
      assert y[n] in y;
      assert (s + y)[..|s + y| - 1] == s + y[..n];
      TrimRightOf(s, y[..n], cut);
    } else {
      Sequences.Unit(s);
    }
  }

  /** The index of the first c, or the length. */
  function IndexOf(s: string, c: char): (i: nat)
    ensures i <= |s| && (i < |s| ==> s[i] == c)
    ensures forall k | 0 <= k < i :: s[k] != c
  {
    if s == "" || s[0] == c then 0 else 1 + IndexOf(s[1..], c)
  }

  /** strings.Split with a one-rune separator. */
  function Split(s: string, c: char): (r: seq<string>)
    ensures r != []
    decreases |s|
  {
    var i := IndexOf(s, c);
    if i == |s| then [s] else [s[..i]] + Split(s[i + 1..], c)
  }

  /** strings.Join with a one-rune separator. */
  function Join(parts: seq<string>, c: char): string {
    if parts == [] then ""
    else if |parts| == 1 then parts[0]
    else parts[0] + [c] + Join(parts[1..], c)
  }

  lemma {:induction false} JoinSplit(s: string, c: char)
    ensures Join(Split(s, c), c) == s
    decreases |s|
  {
    var i := IndexOf(s, c);
    if i < |s| {
      var rest := s[i + 1..];
      JoinSplit(rest, c);
      Sequences.Cons(s[..i], Split(rest, c));
      Sequences.Around(s, i);
      Sequences.Assoc(s[..i], [c], rest);
    }
  }

  lemma {:induction false} SplitJoin(parts: seq<string>, c: char)
    requires parts != [] && forall k | 0 <= k < |parts| :: c !in parts[k]
    ensures Split(Join(parts, c), c) == parts
  {
    var s := Join(parts, c);
    if |parts| == 1 {
      assert IndexOf(s, c) == |s|;
    } else {
      var rest := Join(parts[1..], c);
      SplitJoin(parts[1..], c);
      assert s[|parts[0]|] == c;
      assert forall k | 0 <= k < |parts[0]| :: s[k] == parts[0][k];
      assert IndexOf(s, c) == |parts[0]|;
      assert s[..|parts[0]|] == parts[0] && s[|parts[0]| + 1..] == rest;
    }
  }

  // -------------------------------------------------------- sorting of strings

  predicate Leq(a: string, b: string) {
    a == "" || (b != "" && (a[0] < b[0] || (a[0] == b[0] && Leq(a[1..], b[1..]))))
  }

  /** The order is that of the first runes that differ; a prefix comes first. */
  lemma {:induction false} LeqByFirstDifference(a: string, x: char, y: char, b: string, c: string)
    requires x < y
    ensures Leq(a + ([x] + b), a + ([y] + c)) && !Leq(a + ([y] + c), a + ([x] + b)) && Leq(a, a + b)
  {
    if a == "" {
      Sequences.Unit([x] + b);
      Sequences.Unit([y] + c);
    } else {
      Sequences.AppendTail(a, [x] + b);
      Sequences.AppendTail(a, [y] + c);
      Sequences.AppendTail(a, b);
      LeqByFirstDifference(a[1..], x, y, b, c);
    }
  }

  lemma {:induction false} LeqTotal(a: string, b: string)
    ensures Leq(a, b) || Leq(b, a)
  {
    if a != "" && b != "" {
      LeqTotal(a[1..], b[1..]);
    }
  }

  lemma {:induction false} LeqAntisymmetric(a: string, b: string)
    requires Leq(a, b) && Leq(b, a)
    ensures a == b
  {
    if a != "" && b != "" {
      LeqAntisymmetric(a[1..], b[1..]);
      assert a == [a[0]] + a[1..] && b == [b[0]] + b[1..];
    }
  }

  lemma {:induction false} LeqTransitive(a: string, b: string, c: string)
    requires Leq(a, b) && Leq(b, c)
    ensures Leq(a, c)
  {
    if a != "" && a[0] == b[0] && b[0] == c[0] {
      LeqTransitive(a[1..], b[1..], c[1..]);
    }
  }

  ghost predicate Ordered(xs: seq<string>) {
    forall i, j | 0 <= i <= j < |xs| :: Leq(xs[i], xs[j])
  }

  function Insert(x: string, xs: seq<string>): seq<string> {
    if xs == [] then [x]
    else if Leq(x, xs[0]) then [x] + xs
    else [xs[0]] + Insert(x, xs[1..])
  }

  /** sort.Strings. */
  function Sort(xs: seq<string>): seq<string> {
    if xs == [] then [] else Insert(xs[0], Sort(xs[1..]))
  }

  lemma {:induction false} InsertMultiset(x: string, xs: seq<string>)
    ensures multiset(Insert(x, xs)) == multiset(xs) + multiset{x}
  {
    if xs != [] && !Leq(x, xs[0]) {
      InsertMultiset(x, xs[1..]);
      assert xs == [xs[0]] + xs[1..];
    }
  }

  lemma {:induction false} InsertOrdered(x: string, xs: seq<string>)
    requires Ordered(xs)
    ensures Ordered(Insert(x, xs))
  {
    LeqTotal(x, x);
    if xs == [] {
    } else if Leq(x, xs[0]) {
      forall j | 0 <= j < |xs| ensures Leq(x, xs[j]) {
        LeqTransitive(x, xs[0], xs[j]);
      }
    } else {
      InsertOrdered(x, xs[1..]);
      InsertMultiset(x, xs[1..]);
      LeqTotal(x, xs[0]);
      var r := Insert(x, xs[1..]);
      forall j | 0 <= j < |r| ensures Leq(xs[0], r[j]) {
        assert r[j] in multiset(r);
        assert r[j] == x || r[j] in xs[1..];
      }
    }
  }

  lemma {:induction false} SortOrdered(xs: seq<string>)
    ensures Ordered(Sort(xs)) && multiset(Sort(xs)) == multiset(xs)
  {
    if xs != [] {
      SortOrdered(xs[1..]);
      InsertOrdered(xs[0], Sort(xs[1..]));
      InsertMultiset(xs[0], Sort(xs[1..]));
      assert xs == [xs[0]] + xs[1..];
    }
  }

  lemma WithoutFirst(a: seq<string>)
    requires a != []
    ensures a == [a[0]] + a[1..] && multiset(a[1..]) == multiset(a) - multiset{a[0]}
  {
    assert a == [a[0]] + a[1..];
  }

  lemma {:induction false} OrderedUnique(a: seq<string>, b: seq<string>)
    requires Ordered(a) && Ordered(b) && multiset(a) == multiset(b)
    ensures a == b
  {
    assert |a| == |multiset(a)| == |multiset(b)| == |b|;
    if a != [] {
      assert a[0] in multiset(b) && b[0] in multiset(a);
      LeqAntisymmetric(a[0], b[0]);
      WithoutFirst(a);
      WithoutFirst(b);
      OrderedUnique(a[1..], b[1..]);
    }
  }

  /** The sorted list depends only on which strings occur, and how often. */
  lemma SortCanonical(a: seq<string>, b: seq<string>)
    requires multiset(a) == multiset(b)
    ensures Sort(a) == Sort(b)
  {
    SortOrdered(a);
    SortOrdered(b);
    OrderedUnique(Sort(a), Sort(b));
  }
}
