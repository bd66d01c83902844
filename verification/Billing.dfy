/** The rewrite of the Anthropic billing header in request_policy.go: the pattern
    (?s)(^\s*x-anthropic-billing-header:.*?cch=)[^;[:space:]]+ and its replacement. */
module Billing {
  import opened Text
  import Sequences

  const HEADER: string := "x-anthropic-billing-header:"

  /** The class \s of the pattern: no vertical tab and no space beyond ASCII. */
  predicate PatternSpace(c: char) {
    c == '\t' || c == '\n' || c as int == 12 || c == '\r' || c == ' '
  }

  /** The class [^;[:space:]]. */
  predicate ValueChar(c: char) {
    c != ';' && c as int != 11 && !PatternSpace(c)
  }

  function Leading(t: string): (n: nat)
    ensures n <= |t| && (forall i | 0 <= i < n :: PatternSpace(t[i])) && (n < |t| ==> !PatternSpace(t[n]))
  {
    if t != "" && PatternSpace(t[0]) then 1 + Leading(t[1..]) else 0
  }

  /** What the proofs need of the header: it neither begins nor ends with a space. */
  ghost predicate Solid(h: string) {
    h != "" && !IsSpace(h[0]) && !PatternSpace(h[0]) && !IsSpace(h[|h| - 1])
  }

  /** The text begins with h, after pattern spaces. */
  predicate HasHeader(t: string, h: string) {
    h <= t[Leading(t)..]
  }

  /** A mark at p followed by a non-empty value. */
  predicate Marks(t: string, p: nat) {
    p + 4 < |t| && t[p] == 'c' && t[p + 1] == 'c' && t[p + 2] == 'h' && t[p + 3] == '=' && ValueChar(t[p + 4])
  }

  /** The first such mark at or after `from`, or the length of the text. */
  function FirstMark(t: string, from: nat): (p: nat)
    requires from <= |t|
    ensures from <= p <= |t| && (p < |t| ==> Marks(t, p))
    ensures forall q | from <= q < p :: !Marks(t, q)
    decreases |t| - from
  {
    if from == |t| || Marks(t, from) then from else FirstMark(t, from + 1)
  }

  /** The end of the maximal run of value runes that begins at i. */
  function RunEnd(t: string, i: nat): (e: nat)
    requires i <= |t|
    ensures i <= e <= |t| && (forall k | i <= k < e :: ValueChar(t[k])) && (e < |t| ==> !ValueChar(t[e]))
    decreases |t| - i
  {
    if i < |t| && ValueChar(t[i]) then RunEnd(t, i + 1) else i
  }

  /** The span [from, to) of the value in a text the pattern matches. */
  datatype Span = Absent | At(from: nat, to: nat)

  function ValueAfter(t: string, h: string): (s: Span)
    ensures s.At? ==> s.from < s.to <= |t|
  {
    if !HasHeader(t, h) then Absent
    else
      var p := FirstMark(t, Leading(t) + |h|);
      if p == |t| then Absent else At(p + 4, RunEnd(t, p + 4))
  }

  function Value(t: string): Span {
    ValueAfter(t, HEADER)
  }

  function Replaced(t: string, s: Span, v: string): string
    requires s.At? ==> s.from <= s.to <= |t|
  {
    if s.Absent? then t else t[..s.from] + v + t[s.to..]
  }

  /** rewriteCCHText; the flag of the original is `result != t`. */
  function Rewrite(t: string, replacement: string): string {
    if HEADER <= TrimSpace(t) then Replaced(t, Value(t), replacement) else t
  }

  ghost predicate IsValue(v: string) {
    v != "" && forall i | 0 <= i < |v| :: ValueChar(v[i])
  }

  /** The test with Unicode spaces never rejects a text the pattern matches. */
  lemma MatchPassesTest(t: string, h: string)
    requires HasHeader(t, h) && Solid(h)
    ensures h <= TrimSpace(t)
  {
    TrimLeftLeading(t);
    var l := t[Leading(t)..];
    assert l[0] == h[0];
    assert TrimLeft(l, IsSpace) == l;
    assert |h| <= |TrimRight(l, IsSpace)| by {
      assert l[|h| - 1] == h[|h| - 1];
    }
  }

  lemma {:induction false} TrimLeftLeading(t: string)
    ensures TrimLeft(t, IsSpace) == TrimLeft(t[Leading(t)..], IsSpace)
  {
    if t != "" && PatternSpace(t[0]) {
      TrimLeftLeading(t[1..]);
      assert t[1..][Leading(t[1..])..] == t[Leading(t)..];
    }
  }

  lemma RewriteByPattern(t: string, replacement: string)
    ensures Rewrite(t, replacement) == Replaced(t, Value(t), replacement)
  {
    if Value(t).At? {
      MatchPassesTest(t, HEADER);
    }
  }

  /** u is t with v for the text of s, rune by rune. */
  ghost predicate Swapped(t: string, u: string, s: Span, v: string) {
    && s.At? && s.from <= s.to <= |t| && |u| == s.from + |v| + (|t| - s.to)
    && (forall i | 0 <= i < s.from :: u[i] == t[i])
    && (forall i | s.from <= i < s.from + |v| :: u[i] == v[i - s.from])
    && (s.to < |t| ==> u[s.from + |v|] == t[s.to])
  }

  lemma ReplacedSwaps(t: string, s: Span, v: string)
    requires s.At? && s.from <= s.to <= |t|
    ensures Swapped(t, Replaced(t, s, v), s, v)
  {
  }

  /** Replacing the value by any other value moves nothing: the header, the mark and
      the start of the value stay, and the value ends where the new one ends. */
  lemma SpanStable(t: string, h: string, v: string)
    requires Solid(h) && ValueAfter(t, h).At? && IsValue(v)
    ensures var s := ValueAfter(t, h); ValueAfter(Replaced(t, s, v), h) == At(s.from, s.from + |v|)
  {
    var s := ValueAfter(t, h);
    var start := Leading(t) + |h|;
    assert HasHeader(t, h) && start <= |t| && FirstMark(t, start) < |t| && Marks(t, FirstMark(t, start));
    ReplacedSwaps(t, s, v);
    SpanMoves(t, Replaced(t, s, v), h, start, s, v);
  }

  lemma SpanMoves(t: string, u: string, h: string, start: nat, s: Span, v: string)
    requires Solid(h) && IsValue(v) && Swapped(t, u, s, v) && HasHeader(t, h) && start == Leading(t) + |h| <= |t|
    requires FirstMark(t, start) < |t| && Marks(t, FirstMark(t, start))
    requires s == At(FirstMark(t, start) + 4, RunEnd(t, FirstMark(t, start) + 4))
    ensures ValueAfter(u, h) == At(s.from, s.from + |v|)
  {
    HeaderStable(t, u, h, s.from);
    MarkMoves(t, u, start, s, v);
    SpanFound(u, h, start, s.from - 4);
  }

  lemma MarkMoves(t: string, u: string, start: nat, s: Span, v: string)
    requires start <= |t| && IsValue(v) && Swapped(t, u, s, v)
    requires FirstMark(t, start) < |t| && s == At(FirstMark(t, start) + 4, RunEnd(t, FirstMark(t, start) + 4))
    ensures FirstMark(u, start) == s.from - 4 && RunEnd(u, s.from) == s.from + |v|
  {
    FirstMarkStable(t, u, start, s.from - 4);
  }

  lemma SpanFound(u: string, h: string, start: nat, p: nat)
    requires HasHeader(u, h) && start == Leading(u) + |h| <= |u| && FirstMark(u, start) == p && p + 4 < |u|
    ensures ValueAfter(u, h) == At(p + 4, RunEnd(u, p + 4))
  {
  }

  lemma HeaderStable(t: string, u: string, h: string, n: nat)
    requires h != "" && HasHeader(t, h) && Leading(t) + |h| <= n <= |t| && n <= |u|
    requires forall i | 0 <= i < n :: u[i] == t[i]
    ensures HasHeader(u, h) && Leading(u) == Leading(t)
  {
    LeadingPrefix(t, u, n);
    assert forall i | 0 <= i < |h| :: u[Leading(t)..][i] == t[Leading(t)..][i] == h[i];
  }

  lemma FirstMarkStable(t: string, u: string, start: nat, p: nat)
    requires start <= |t| && p == FirstMark(t, start) < |t| && p + 4 < |u|
    requires ValueChar(u[p + 4]) && forall i | 0 <= i < p + 4 :: u[i] == t[i]
    ensures FirstMark(u, start) == p
  {
    assert Marks(u, p);
    forall q | start <= q < p ensures !Marks(u, q) {
      assert !Marks(t, q);
    }
  }

  lemma {:induction false} LeadingPrefix(t: string, u: string, n: nat)
    requires n <= |t| && n <= |u| && Leading(t) < n && forall i | 0 <= i < n :: u[i] == t[i]
    ensures Leading(u) == Leading(t)
  {
    if PatternSpace(t[0]) {
      LeadingPrefix(t[1..], u[1..], n - 1);
    }
  }

  lemma ReplacedTwice(t: string, s: Span, v: string, w: string)
    requires s.At? && s.from <= s.to <= |t|
    ensures Replaced(Replaced(t, s, v), At(s.from, s.from + |v|), w) == Replaced(t, s, w)
  {
    var u := Replaced(t, s, v);
    assert u[..s.from] == t[..s.from] && u[s.from + |v|..] == t[s.to..];
  }

  /** A header, the mark and a value make a text with exactly that value. */
  lemma ValueWritten(h: string, v: string)
    requires Solid(h) && IsValue(v)
    ensures ValueAfter(h + "cch=" + v, h) == At(|h| + 4, |h| + 4 + |v|)
  {
    var t := h + "cch=" + v;
    assert t[0] == h[0] && t[..|h|] == h && t[0..] == t;
    assert Leading(t) == 0;
    assert t[|h|] == 'c' && t[|h| + 1] == 'c' && t[|h| + 2] == 'h' && t[|h| + 3] == '=' && t[|h| + 4] == v[0];
    assert Marks(t, |h|);
    assert forall k | |h| + 4 <= k < |t| :: t[k] == v[k - |h| - 4];
    assert RunEnd(t, |h| + 4) == |t|;
  }

  /** Two texts that differ only in the value are rewritten to the same text; with
      the replacement itself as the other value, rewriting is idempotent. */
  lemma Canonical(t: string, v: string, replacement: string)
    requires Value(t).At? && IsValue(v)
    ensures Rewrite(Replaced(t, Value(t), v), replacement) == Rewrite(t, replacement)
  {
    RewriteByPattern(t, replacement);
    RewriteByPattern(Replaced(t, Value(t), v), replacement);
    SpanStable(t, HEADER, v);
    ReplacedTwice(t, Value(t), v, replacement);
  }

  lemma Idempotent(t: string, replacement: string)
    requires IsValue(replacement)
    ensures Rewrite(Rewrite(t, replacement), replacement) == Rewrite(t, replacement)
  {
    RewriteByPattern(t, replacement);
    if Value(t).At? {
      Canonical(t, replacement, replacement);
    }
  }

  /** A text changes exactly when it has a value other than the replacement; text
      before and after the value is kept. */
  lemma ChangesOnlyTheValue(t: string, replacement: string)
    ensures Rewrite(t, replacement) != t <==> Value(t).At? && t[Value(t).from..Value(t).to] != replacement
    ensures Value(t).At? ==>
      Rewrite(t, replacement) == t[..Value(t).from] + replacement + t[Value(t).to..]
  {
    RewriteByPattern(t, replacement);
    if Value(t).At? {
      SpanEquality(t, Value(t), replacement);
    }
  }

  /** So there are texts that change. */
  lemma RewriteChanges(v: string, replacement: string)
    requires IsValue(v) && v != replacement
    ensures Rewrite(HEADER + "cch=" + v, replacement) != HEADER + "cch=" + v
  {
    var h: string := HEADER;
    var t := h + "cch=" + v;
    ValueWritten(h, v);
    assert t[|h| + 4..|h| + 4 + |v|] == v;
    ChangesOnlyTheValue(t, replacement);
  }

  lemma SpanEquality(t: string, s: Span, v: string)
    requires s.At? && s.from <= s.to <= |t|
    ensures Replaced(t, s, v) == t <==> t[s.from..s.to] == v
  {
    var u := Replaced(t, s, v);
    assert t == t[..s.from] + t[s.from..s.to] + t[s.to..];
    assert u[s.from..s.from + |v|] == v;
  }

  predicate WordChar(c: char) {
    'a' <= c <= 'z' || 'A' <= c <= 'Z' || '0' <= c <= '9' || c == '_' || c == '-' || c == '.'
  }

  function Filtered(v: string): string {
    if v == "" then "" else (if WordChar(v[0]) then [v[0]] else "") + Filtered(v[1..])
  }

  /** normalizeCCHReplacement with the default for an empty result. */
  function Replacement(configured: string): (r: string)
    ensures IsValue(r)
  {
    FilteredWords(TrimSpace(configured));
    var f := Filtered(TrimSpace(configured));
    if f == "" then "stable" else f
  }

  lemma {:induction false} FilteredWords(v: string)
    ensures forall i | 0 <= i < |Filtered(v)| :: WordChar(Filtered(v)[i])
  {
    if v != "" {
      FilteredWords(v[1..]);
    }
  }

  // -------------------------------------------------------------- texts written out

  lemma ShiftMark(a: string, b: string, q: nat)
    ensures Marks(a + b, |a| + q) <==> Marks(b, q)
  {
    if q + 4 < |b| {
      assert (a + b)[|a| + q] == b[q] && (a + b)[|a| + q + 1] == b[q + 1] && (a + b)[|a| + q + 2] == b[q + 2];
      assert (a + b)[|a| + q + 3] == b[q + 3] && (a + b)[|a| + q + 4] == b[q + 4];
    }
  }

  lemma {:induction false} ShiftFirst(a: string, b: string, from: nat)
    requires from <= |b|
    ensures FirstMark(a + b, |a| + from) == |a| + FirstMark(b, from)
    decreases |b| - from
  {
    if from < |b| {
      ShiftMark(a, b, from);
      ShiftFirst(a, b, from + 1);
    }
  }

  lemma {:induction false} ShiftRun(a: string, b: string, i: nat)
    requires i <= |b|
    ensures RunEnd(a + b, |a| + i) == |a| + RunEnd(b, i)
    decreases |b| - i
  {
    if i < |b| {
      assert (a + b)[|a| + i] == b[i];
      ShiftRun(a, b, i + 1);
    }
  }

  lemma RunOf(v: string, tail: string)
    requires (forall i | 0 <= i < |v| :: ValueChar(v[i])) && (tail != "" ==> !ValueChar(tail[0]))
    ensures RunEnd(v + tail, 0) == |v|
  {
    var b := v + tail;
    assert forall i | 0 <= i < |v| :: b[i] == v[i];
    assert tail != "" ==> b[|v|] == tail[0];
  }

  /** The mark that follows a text without an equals sign is the first. */
  lemma {:induction false} FirstMarkAfter(mid: string, v: string, tail: string)
    requires '=' !in mid && IsValue(v)
    ensures FirstMark(mid + ("cch=" + (v + tail)), 0) == |mid|
    decreases |mid|
  {
    var mark := "cch=" + (v + tail);
    var body := mid + mark;
    assert mark[0] == 'c' && mark[1] == 'c' && mark[2] == 'h' && mark[3] == '=' && mark[4] == v[0];
    if mid == "" {
      assert body == mark && Marks(body, 0);
    } else {
      Sequences.AppendTail(mid, mark);
      FirstMarkAfter(mid[1..], v, tail);
      assert body == [body[0]] + body[1..];
      ShiftFirst([body[0]], body[1..], 0);
      assert body[3] == if |mid| > 3 then mid[3] else mark[3 - |mid|];
    }
  }

  /** t is spaces, h, something without an equals sign, the mark, v and a tail that ends
      v. */
  lemma WrittenSpan(spaces: string, h: string, mid: string, v: string, tail: string, t: string)
    requires Solid(h) && IsValue(v) && '=' !in mid && (tail != "" ==> !ValueChar(tail[0]))
    requires forall i | 0 <= i < |spaces| :: PatternSpace(spaces[i])
    requires t == spaces + (h + (mid + ("cch=" + (v + tail))))
    ensures var p := |spaces| + |h| + |mid| + 4; ValueAfter(t, h) == At(p, p + |v|)
  {
    var x, before := spaces + h, spaces + (h + (mid + "cch="));
    HeaderStarts(spaces, h, mid + ("cch=" + (v + tail)), t);
    Sequences.Assoc(spaces, h, mid + ("cch=" + (v + tail)));
    Regrouped(spaces, h, mid, v + tail);
    SpanBehind(x, before, mid, v, tail, t);
    SpanFound(t, h, |x|, |x| + |mid|);
  }

  lemma SpanBehind(x: string, before: string, mid: string, v: string, tail: string, t: string)
    requires IsValue(v) && '=' !in mid && (tail != "" ==> !ValueChar(tail[0])) && |before| == |x| + |mid| + 4
    requires t == x + (mid + ("cch=" + (v + tail))) && t == before + (v + tail)
    ensures FirstMark(t, |x|) == |x| + |mid| && |before| < |t| && RunEnd(t, |before|) == |before| + |v|
  {
    FirstMarkAfter(mid, v, tail);
    MarkBehind(x, mid + ("cch=" + (v + tail)), |mid|, t);
    RunOf(v, tail);
    RunBehind(before, v + tail, |v|, t);
  }

  lemma HeaderStarts(spaces: string, h: string, body: string, t: string)
    requires Solid(h) && (forall i | 0 <= i < |spaces| :: PatternSpace(spaces[i])) && t == spaces + (h + body)
    ensures HasHeader(t, h) && Leading(t) == |spaces| && |spaces| + |h| <= |t|
  {
    LeadingOf(spaces, h + body);
    Behind(spaces, h + body);
  }

  lemma MarkBehind(x: string, body: string, m: nat, t: string)
    requires t == x + body && FirstMark(body, 0) == m
    ensures FirstMark(t, |x|) == |x| + m
  {
    ShiftFirst(x, body, 0);
  }

  lemma RunBehind(x: string, body: string, n: nat, t: string)
    requires t == x + body && RunEnd(body, 0) == n
    ensures RunEnd(t, |x|) == |x| + n
  {
    ShiftRun(x, body, 0);
  }

  lemma Behind(a: string, b: string)
    ensures (a + b)[|a|..] == b
  {
  }

  lemma {:induction false} LeadingOf(spaces: string, rest: string)
    requires (forall i | 0 <= i < |spaces| :: PatternSpace(spaces[i])) && (rest != "" ==> !PatternSpace(rest[0]))
    ensures Leading(spaces + rest) == |spaces|
  {
    if spaces != "" {
      assert (spaces + rest)[1..] == spaces[1..] + rest;
      LeadingOf(spaces[1..], rest);
    } else {
      assert spaces + rest == rest;
    }
  }

  /** A billing header keeps all but the value of its first mark. */
  lemma HeaderRewritten(spaces: string, mid: string, v: string, tail: string, replacement: string)
    requires forall c | c in spaces :: c == ' ' || c == '\t' || c == '\n' || c == '\r' || c as int == 12
    requires '=' !in mid
    requires v != "" && forall c | c in v :: c != ';' && c != ' ' && !(9 <= c as int <= 13)
    requires tail != "" ==> tail[0] == ';' || tail[0] == ' ' || 9 <= tail[0] as int <= 13
    ensures var h := "x-anthropic-billing-header:";
      Rewrite(spaces + (h + (mid + ("cch=" + (v + tail)))), replacement) == spaces + (h + (mid + ("cch=" + (replacement + tail))))
  {
    assert forall i | 0 <= i < |spaces| :: spaces[i] in spaces;
    assert forall i | 0 <= i < |v| :: v[i] in v;
    RewrittenAs(spaces, HEADER, mid, v, tail, replacement);
  }

  lemma RewrittenAs(spaces: string, h: string, mid: string, v: string, tail: string, replacement: string)
    requires h == HEADER && Solid(h) && IsValue(v) && '=' !in mid && (tail != "" ==> !ValueChar(tail[0]))
    requires forall i | 0 <= i < |spaces| :: PatternSpace(spaces[i])
    ensures Rewrite(spaces + (h + (mid + ("cch=" + (v + tail)))), replacement) == spaces + (h + (mid + ("cch=" + (replacement + tail))))
  {
    var x := spaces + (h + (mid + "cch="));
    var t := x + (v + tail);
    Regrouped(spaces, h, mid, v + tail);
    Regrouped(spaces, h, mid, replacement + tail);
    WrittenSpan(spaces, h, mid, v, tail, t);
    RewriteOf(x, v, tail, t, replacement);
  }

  lemma RewriteOf(x: string, v: string, tail: string, t: string, w: string)
    requires t == x + (v + tail) && Value(t) == At(|x|, |x| + |v|)
    ensures Rewrite(t, w) == x + (w + tail)
  {
    RewriteByPattern(t, w);
    Exchanged(x, v, tail, w);
  }

  lemma Exchanged(x: string, v: string, tail: string, w: string)
    ensures Replaced(x + (v + tail), At(|x|, |x| + |v|), w) == x + (w + tail)
  {
    var t := x + (v + tail);
    assert t[..|x|] == x && t[|x| + |v|..] == tail;
  }

  lemma Regrouped(spaces: string, h: string, mid: string, rest: string)
    ensures spaces + (h + (mid + "cch=")) + rest == spaces + (h + (mid + ("cch=" + rest)))
  {
    Sequences.Assoc(spaces, h + (mid + "cch="), rest);
    Sequences.Assoc(h, mid + "cch=", rest);
    Sequences.Assoc(mid, "cch=", rest);
  }

  /** A text that does not begin with the header, after white space, is left alone. */
  lemma OtherTextsKept(t: string, replacement: string)
    requires forall n | 0 <= n <= |t| && (forall i | 0 <= i < n :: PatternSpace(t[i])) :: !("x-anthropic-billing-header:" <= t[n..])
    ensures Rewrite(t, replacement) == t
  {
    RewriteByPattern(t, replacement);
    assert HEADER <= t[Leading(t)..] ==> false;
  }

  lemma {:induction false} FilteredSame(v: string)
    requires forall c | c in v :: WordChar(c)
    ensures Filtered(v) == v
  {
    if v != "" {
      assert v[0] in v && forall c | c in v[1..] :: c in v;
      FilteredSame(v[1..]);
      assert v == [v[0]] + v[1..];
    }
  }

  /** A configured word is used as it is, and "stable" if there is none. */
  lemma ReplacementUsed(configured: string)
    requires forall c | c in configured :: 'a' <= c <= 'z' || 'A' <= c <= 'Z' || '0' <= c <= '9' || c in {'_', '-', '.'}
    ensures Replacement(configured) == if configured == "" then "stable" else configured
  {
    if configured != "" {
      assert configured[0] in configured && configured[|configured| - 1] in configured;
    }
    TrimNothing(configured, IsSpace);
    FilteredSame(configured);
  }
}
