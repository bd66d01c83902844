/** The prompt-cache key of request_policy.go. */
module CacheKey {
  import Sequences
  import opened Options
  import opened Text

  predicate Allowed(c: char) {
    c == '.' || c == '_' || c == '-' || 'a' <= c <= 'z' || 'A' <= c <= 'Z' || '0' <= c <= '9'
  }

  predicate Separator(c: char) {
    IsSpace(c) || c == ':' || c == '/' || c == '\\' || c == ';' || c == ','
  }

  predicate IsDash(c: char) { c == '-' }

  predicate IsTail(c: char) { c == ':' || c == '-' || c == '_' }

  /** What has been written after reading s, and whether the last thing written
      was a dash standing for a separator. */
  function Mapped(s: string): (string, bool) {
    if s == "" then ("", false)
    else
      var (out, lastDash) := Mapped(s[..|s| - 1]);
      var c := s[|s| - 1];
      if Allowed(c) then (out + [c], false)
      else if Separator(c) then (if lastDash then out else out + "-", true)
      else (out, lastDash)
  }

  function Normalize(part: string): string {
    var p := TrimSpace(part);
    if p == "" then "" else Trim(Mapped(p).0, IsDash)
  }

  /** normalizeCacheKeyPart, with its builder. */
  method NormalizeCacheKeyPart(part: string) returns (r: string)
    ensures r == Normalize(part)
    ensures r == "" || Normal(r)
  {
    NormalizeNormal(part);
    var p := TrimSpace(part);
    if p == "" {
      return "";
    }
    var b, lastDash := "", false;
    for i := 0 to |p|
      invariant (b, lastDash) == Mapped(p[..i])
    {
      assert p[..i + 1][..i] == p[..i];
      if Allowed(p[i]) {
        b := b + [p[i]];
        lastDash := false;
      } else if Separator(p[i]) {
        if !lastDash {
          b := b + "-";
          lastDash := true;
        }
      }
    }
    assert p[..|p|] == p;
    r := Trim(b, IsDash);
  }

  /** What a normalised part looks like. */
  ghost predicate Normal(p: string) {
    && p != "" && p[0] != '-' && p[|p| - 1] != '-'
    && forall i | 0 <= i < |p| :: Allowed(p[i])
  }

  lemma {:induction false} MappedAllowed(s: string)
    ensures forall c | c in Mapped(s).0 :: Allowed(c)
  {
    if s != "" {
      MappedAllowed(s[..|s| - 1]);
    }
  }

  lemma NormalizeNormal(part: string)
    ensures Normalize(part) == "" || Normal(Normalize(part))
  {
    MappedAllowed(TrimSpace(part));
  }

  lemma {:induction false} MappedFixed(s: string)
    requires forall i | 0 <= i < |s| :: Allowed(s[i])
    ensures Mapped(s) == (s, false)
  {
    if s != "" {
      MappedFixed(s[..|s| - 1]);
      assert s == s[..|s| - 1] + [s[|s| - 1]];
    }
  }

  /** Normalisation leaves normal parts alone, so it is idempotent. */
  lemma NormalFixed(p: string)
    requires Normal(p)
    ensures Normalize(p) == p
  {
    TrimNothing(p, IsSpace);
    MappedFixed(p);
    TrimNothing(p, IsDash);
  }

  /** The non-empty normalised parts, in order. */
  function Kept(parts: seq<string>): seq<string> {
    if parts == [] then []
    else (if Normalize(parts[0]) == "" then [] else [Normalize(parts[0])]) + Kept(parts[1..])
  }

  predicate HexDigit(c: char) { '0' <= c <= '9' || 'a' <= c <= 'f' }

  /** All that is used of SHA-256 in hexadecimal: 64 lower-case digits. */
  ghost predicate IsDigest(digest: string -> string) {
    forall s :: |digest(s)| == 64 && forall i | 0 <= i < 64 :: HexDigit(digest(s)[i])
  }

  function Effective(maxLength: int): (m: int)
    ensures m > 0
  {
    if maxLength <= 0 then 256 else maxLength
  }

  /** BuildPromptCacheKey; None is the run-time panic of slicing 17 runes out of a
      16-rune suffix. */
  function Build(maxLength: int, parts: seq<string>, digest: string -> string): Option<string>
    requires IsDigest(digest)
  {
    var max := Effective(maxLength);
    var kept := Kept(parts);
    if kept == [] then Some("")
    else
      var key := Join(kept, ':');
      if |key| <= max then Some(key)
      else
        var suffix := digest(key)[..16];
        if max <= 17 then
          if max > 16 then None else Some(suffix[..max])
        else Some(TrimRight(key[..max - 17], IsTail) + ":" + suffix)
  }

  /** The key never exceeds the effective maximum. The only inputs without a key
      are a maximum of 17 with a normalised key longer than that. */
  lemma LengthBound(maxLength: int, parts: seq<string>, digest: string -> string)
    requires IsDigest(digest)
    ensures var r := Build(maxLength, parts, digest);
      && (r.None? <==> maxLength == 17 && |Join(Kept(parts), ':')| > 17)
      && (r.Some? ==> |r.value| <= Effective(maxLength))
  {
  }

  /** A joined key, described by each rune and its neighbour alone. */
  ghost predicate Good(k: string) {
    && k != ""
    && (forall i | 0 <= i < |k| :: Allowed(k[i]) || k[i] == ':')
    && k[0] !in {':', '-'} && k[|k| - 1] !in {':', '-'}
    && (forall i, j | 0 <= i < |k| && j == i + 1 && j < |k| ::
          (k[i] == ':' ==> k[j] !in {':', '-'}) && (k[j] == ':' ==> k[i] !in {':', '-'}))
  }

  lemma {:induction false} GoodJoin(parts: seq<string>)
    requires parts != [] && forall k | 0 <= k < |parts| :: Normal(parts[k])
    ensures Good(Join(parts, ':'))
  {
    assert Normal(parts[0]);
    if |parts| > 1 {
      GoodJoin(parts[1..]);
      GoodConcat(parts[0], Join(parts[1..], ':'));
    }
  }

  lemma GoodConcat(a: string, b: string)
    requires Good(a) && Good(b)
    ensures Good(a + ":" + b)
  {
    var k := a + ":" + b;
    forall i, j | 0 <= i < |k| && j == i + 1 && j < |k|
      ensures (k[i] == ':' ==> k[j] !in {':', '-'}) && (k[j] == ':' ==> k[i] !in {':', '-'})
    {
      if j < |a| {
        assert k[i] == a[i] && k[j] == a[j];
      } else if i > |a| {
        assert k[i] == b[i - |a| - 1] && k[j] == b[j - |a| - 1];
      }
    }
  }

  lemma GoodPrefix(k: string, p: string)
    requires Good(k) && p <= k && p != "" && !IsTail(p[|p| - 1])
    ensures Good(p)
  {
    forall i, j | 0 <= i < |p| && j == i + 1 && j < |p|
      ensures (p[i] == ':' ==> p[j] !in {':', '-'}) && (p[j] == ':' ==> p[i] !in {':', '-'})
    {
      assert p[i] == k[i] && p[j] == k[j];
    }
  }

  lemma {:induction false} GoodSplit(k: string)
    requires Good(k)
    ensures forall i | 0 <= i < |Split(k, ':')| :: Normal(Split(k, ':')[i])
    decreases |k|
  {
    var f := IndexOf(k, ':');
    if f < |k| {
      var rest := k[f + 1..];
      assert f > 0 && f + 1 < |k|;
      assert k[f] == ':' && k[f + 1] !in {':', '-'};
      assert k[f - 1] !in {':', '-'} by { var i, j := f - 1, f; assert 0 <= i < |k| && j == i + 1 && j < |k|; }
      forall i, j | 0 <= i < |rest| && j == i + 1 && j < |rest|
        ensures (rest[i] == ':' ==> rest[j] !in {':', '-'}) && (rest[j] == ':' ==> rest[i] !in {':', '-'})
      {
        var i', j' := i + f + 1, j + f + 1;
        assert rest[i] == k[i'] && rest[j] == k[j'];
      }
      assert Good(rest);
      GoodSplit(rest);
      assert Normal(k[..f]);
    } else {
      assert Normal(k);
    }
  }

  lemma {:induction false} KeptNormal(parts: seq<string>)
    ensures forall k | 0 <= k < |Kept(parts)| :: Normal(Kept(parts)[k])
  {
    if parts != [] {
      NormalizeNormal(parts[0]);
      KeptNormal(parts[1..]);
    }
  }

  lemma {:induction false} KeptFixed(parts: seq<string>)
    requires forall k | 0 <= k < |parts| :: Normal(parts[k])
    ensures Kept(parts) == parts
  {
    if parts != [] {
      assert Normal(parts[0]);
      NormalFixed(parts[0]);
      KeptFixed(parts[1..]);
      assert parts == [parts[0]] + parts[1..];
    }
  }

  /** A good key within the limit is rebuilt from its own parts. */
  lemma GoodRebuilds(maxLength: int, k: string, digest: string -> string)
    requires IsDigest(digest) && Good(k) && |k| <= Effective(maxLength)
    ensures Build(maxLength, Split(k, ':'), digest) == Some(k)
  {
    GoodSplit(k);
    KeptFixed(Split(k, ':'));
    JoinSplit(k, ':');
  }

  /** Every key the builder returns is empty, good, or a colon and a good suffix. */
  lemma BuiltShape(maxLength: int, parts: seq<string>, digest: string -> string)
    requires IsDigest(digest) && Build(maxLength, parts, digest).Some?
    ensures var k := Build(maxLength, parts, digest).value;
      k == "" || Good(k) || (|k| == 17 && k[0] == ':' && Good(k[1..]))
  {
    var max, kept := Effective(maxLength), Kept(parts);
    KeptNormal(parts);
    if kept != [] {
      GoodJoin(kept);
      if |Join(kept, ':')| > max {
        var key := Join(kept, ':');
        ShortenedShape(key, digest(key)[..16], max);
      }
    }
  }

  lemma ShortenedShape(key: string, suffix: string, max: int)
    requires Good(key) && |key| > max > 0
    requires |suffix| == 16 && forall i | 0 <= i < 16 :: HexDigit(suffix[i])
    ensures max <= 16 ==> Good(suffix[..max])
    ensures max > 17 ==> var k := TrimRight(key[..max - 17], IsTail) + ":" + suffix;
      Good(k) || (|k| == 17 && k[0] == ':' && Good(k[1..]))
  {
    assert Good(suffix);
    if max > 17 {
      var p := TrimRight(key[..max - 17], IsTail);
      if p == "" {
        assert (p + ":" + suffix)[1..] == suffix;
      } else {
        GoodPrefix(key, p);
        GoodConcat(p, suffix);
      }
    }
  }

  /** The key is too long, and what is kept of it before the suffix is nothing but runes
      that may not end a prefix. */
  predicate LosesPrefix(maxLength: int, parts: seq<string>) {
    var max, key := Effective(maxLength), Join(Kept(parts), ':');
    |key| > max > 17 && forall i | 0 <= i < max - 17 :: IsTail(key[i])
  }

  /** Exactly then the key starts with a colon. */
  lemma ColonExactly(maxLength: int, parts: seq<string>, digest: string -> string)
    requires IsDigest(digest) && Build(maxLength, parts, digest).Some?
    ensures var k := Build(maxLength, parts, digest).value; k != "" && k[0] == ':' <==> LosesPrefix(maxLength, parts)
  {
    var max, key := Effective(maxLength), Join(Kept(parts), ':');
    KeptNormal(parts);
    if Kept(parts) != [] {
      GoodJoin(Kept(parts));
      if |key| > max > 17 {
        PrefixLost(key[..max - 17]);
      }
    }
  }

  lemma PrefixLost(p: string)
    ensures TrimRight(p, IsTail) == "" <==> forall i | 0 <= i < |p| :: IsTail(p[i])
  {
    var r := TrimRight(p, IsTail);
    if r != "" {
      assert p[|r| - 1] == r[|r| - 1];
    }
  }

  lemma EmptyRebuilds(maxLength: int, digest: string -> string)
    requires IsDigest(digest)
    ensures Build(maxLength, Split("", ':'), digest) == Some("")
  {
    assert Split("", ':') == [""];
    var none: seq<string> := [];
    assert [""][1..] == none;
  }

  lemma RebuildsUnlessColon(maxLength: int, k: string, digest: string -> string)
    requires IsDigest(digest) && |k| <= Effective(maxLength)
    requires k == "" || Good(k) || (|k| == 17 && k[0] == ':' && Good(k[1..]))
    ensures Build(maxLength, Split(k, ':'), digest) == Some(k) <==> !(k != "" && k[0] == ':')
  {
    if k == "" {
      EmptyRebuilds(maxLength, digest);
    } else if k[0] != ':' {
      GoodRebuilds(maxLength, k, digest);
    } else {
      ColonDropped(k);
      GoodRebuilds(maxLength, k[1..], digest);
      BuiltFromKept(maxLength, Split(k, ':'), Split(k[1..], ':'), digest);
      assert |k[1..]| < |k|;
    }
  }

  lemma ColonDropped(k: string)
    requires k != "" && k[0] == ':'
    ensures Kept(Split(k, ':')) == Kept(Split(k[1..], ':'))
  {
    var rest := Split(k[1..], ':');
    assert IndexOf(k, ':') == 0;
    assert k[..0] == "";
    Sequences.Cons("", rest);
    NothingKept("");
  }

  lemma NothingKept(part: string)
    requires part == ""
    ensures Normalize(part) == ""
  {
  }

  /** Building again from the colon-separated parts of a built key gives the same key
      exactly when the first call did not lose its prefix. */
  lemma RebuildsExactly(maxLength: int, parts: seq<string>, digest: string -> string)
    requires IsDigest(digest) && Build(maxLength, parts, digest).Some?
    ensures var k := Build(maxLength, parts, digest).value;
      Build(maxLength, Split(k, ':'), digest) == Some(k) <==> !LosesPrefix(maxLength, parts)
  {
    BuiltShape(maxLength, parts, digest);
    LengthBound(maxLength, parts, digest);
    ColonExactly(maxLength, parts, digest);
    RebuildsUnlessColon(maxLength, Build(maxLength, parts, digest).value, digest);
  }

  /** A long key can lose its whole prefix: the exception above does occur. */
  lemma ColonKeyExists(digest: string -> string)
    requires IsDigest(digest)
    ensures var r := Build(18, [seq(19, _ => '_')], digest); r.Some? && r.value != "" && r.value[0] == ':'
  {
    var p := seq(19, _ => '_');
    NormalFixed(p);
    KeptFixed([p]);
    assert p[..1] == "_" && "_"[..0] == "";
  }

  /** And the panic does. */
  lemma PanicExists(digest: string -> string)
    requires IsDigest(digest)
    ensures Build(17, [seq(18, _ => 'a')], digest) == None
  {
    var p := seq(18, _ => 'a');
    NormalFixed(p);
    KeptFixed([p]);
  }

  // -------------------------------------------------- what becomes of the parts given

  /** A maximum that is not positive stands for 256. */
  lemma DefaultLength(maxLength: int, parts: seq<string>, digest: string -> string)
    requires IsDigest(digest) && maxLength <= 0
    ensures Build(maxLength, parts, digest) == Build(256, parts, digest)
  {
  }

  lemma {:induction false} KeptAppend(a: seq<string>, b: seq<string>)
    ensures Kept(a + b) == Kept(a) + Kept(b)
  {
    if a == [] {
      Sequences.Unit(b);
      Sequences.Unit(Kept(b));
    } else {
      Sequences.AppendTail(a, b);
      KeptAppend(a[1..], b);
      Sequences.Assoc(if Normalize(a[0]) == "" then [] else [Normalize(a[0])], Kept(a[1..]), Kept(b));
    }
  }

  /** A blank part makes no difference, wherever it stands. */
  lemma BlankIgnored(maxLength: int, a: seq<string>, blank: string, b: seq<string>, digest: string -> string)
    requires IsDigest(digest) && TrimSpace(blank) == ""
    ensures Build(maxLength, a + ([blank] + b), digest) == Build(maxLength, a + b, digest)
  {
    KeptAppend(a, [blank] + b);
    KeptAppend(a, b);
    Sequences.Cons(blank, b);
    Sequences.Unit(Kept(b));
    BuiltFromKept(maxLength, a + ([blank] + b), a + b, digest);
  }

  lemma BuiltFromKept(maxLength: int, a: seq<string>, b: seq<string>, digest: string -> string)
    requires IsDigest(digest) && Kept(a) == Kept(b)
    ensures Build(maxLength, a, digest) == Build(maxLength, b, digest)
  {
  }

  /** Normal parts that fit make the key that has them between its colons. */
  lemma PartsShown(maxLength: int, parts: seq<string>, digest: string -> string)
    requires IsDigest(digest) && parts != [] && forall i | 0 <= i < |parts| :: Normal(parts[i])
    requires |Join(parts, ':')| <= if maxLength <= 0 then 256 else maxLength
    ensures Build(maxLength, parts, digest).Some? && Split(Build(maxLength, parts, digest).value, ':') == parts
  {
    KeptFixed(parts);
    assert forall i | 0 <= i < |parts| :: Normal(parts[i]) && ':' !in parts[i];
    SplitJoin(parts, ':');
  }

  /** A longer key ends with the first 16 digits of the digest of the whole, after as much
      of it as fits; with too small a maximum it is the digits alone. */
  lemma LongKeyShown(maxLength: int, parts: seq<string>, digest: string -> string)
    requires IsDigest(digest) && parts != [] && maxLength > 0 && forall i | 0 <= i < |parts| :: Normal(parts[i])
    requires |Join(parts, ':')| > maxLength
    ensures var r, whole := Build(maxLength, parts, digest), Join(parts, ':');
      && (maxLength <= 16 ==> r == Some(digest(whole)[..maxLength]))
      && (maxLength > 17 ==> r.Some? && |r.value| >= 17 && r.value[|r.value| - 16..] == digest(whole)[..16]
                             && r.value[|r.value| - 17] == ':' && r.value[..|r.value| - 17] == Clipped(whole, maxLength - 17))
  {
    KeptFixed(parts);
    var whole := Join(parts, ':');
    if maxLength > 17 {
      Shortened(maxLength, whole, digest(whole)[..16]);
    } else if maxLength <= 16 {
      Sequences.TakeTake(digest(whole), maxLength, 16);
    }
  }

  lemma Shortened(max: int, whole: string, suffix: string)
    requires |suffix| == 16 && |whole| > max > 17
    ensures var k := TrimRight(whole[..max - 17], IsTail) + ":" + suffix;
      |k| >= 17 && k[|k| - 16..] == suffix && k[|k| - 17] == ':' && k[..|k| - 17] == Clipped(whole, max - 17)
  {
    EndsWith(TrimRight(whole[..max - 17], IsTail), suffix);
    ClippedTrims(whole, max - 17);
  }

  /** The first n runes, but for colons, dashes and underscores at the end. */
  function Clipped(s: string, n: nat): string
    requires n <= |s|
  {
    if n > 0 && s[n - 1] in {':', '-', '_'} then Clipped(s, n - 1) else s[..n]
  }

  lemma {:induction false} ClippedTrims(s: string, n: nat)
    requires n <= |s|
    ensures TrimRight(s[..n], IsTail) == Clipped(s, n)
  {
    if n > 0 {
      assert s[..n][..n - 1] == s[..n - 1];
      ClippedTrims(s, n - 1);
    }
  }

  lemma EndsWith(p: string, suffix: string)
    requires |suffix| == 16
    ensures var k := p + ":" + suffix; |k| == |p| + 17 && k[|k| - 16..] == suffix && k[|k| - 17] == ':' && k[..|k| - 17] == p
  {
  }

  lemma {:induction false} MappedText(a: string, b: string)
    requires forall i | 0 <= i < |b| :: Allowed(b[i])
    ensures Mapped(a + b) == (Mapped(a).0 + b, if b == "" then Mapped(a).1 else false)
  {
    if b == "" {
      Sequences.Unit(a);
      Sequences.Unit(Mapped(a).0);
    } else {
      var n := |b| - 1;
      assert (a + b)[..|a + b| - 1] == a + b[..n];
      MappedText(a, b[..n]);
      Sequences.Assoc(Mapped(a).0, b[..n], [b[n]]);
      Sequences.Last(b);
    }
  }

  lemma {:induction false} MappedSeparators(a: string, seps: string)
    requires seps != "" && !Mapped(a).1
    requires forall i | 0 <= i < |seps| :: Separator(seps[i]) && !Allowed(seps[i])
    ensures Mapped(a + seps) == (Mapped(a).0 + "-", true)
  {
    var n := |seps| - 1;
    assert (a + seps)[..|a + seps| - 1] == a + seps[..n];
    if n == 0 {
      Sequences.Unit(a);
    } else {
      MappedSeparators(a, seps[..n]);
    }
  }

  lemma NormalEnds(t: string)
    requires t != "" && Allowed(t[0]) && t[0] != '-' && Allowed(t[|t| - 1]) && t[|t| - 1] != '-'
    ensures TrimSpace(t) == t && Trim(t, IsDash) == t
  {
    TrimNothing(t, IsSpace);
    TrimNothing(t, IsDash);
  }

  /** A part of letters, digits, dots, underscores and dashes is kept, if it neither begins nor
      ends with a dash. */
  lemma WordsKept(p: string)
    requires p != "" && p[0] != '-' && p[|p| - 1] != '-'
    requires forall c | c in p :: 'a' <= c <= 'z' || 'A' <= c <= 'Z' || '0' <= c <= '9' || c in {'.', '_', '-'}
    ensures Normal(p) && Normalize(p) == p
  {
    assert forall i | 0 <= i < |p| :: p[i] in p;
    NormalFixed(p);
  }

  /** Any run of white space, colons, slashes, backslashes, semicolons and commas inside a
      part becomes one dash. */
  lemma SeparatorsToDash(a: string, seps: string, b: string)
    requires Normal(a) && Normal(b) && seps != ""
    requires forall c | c in seps :: IsSpace(c) || c in {':', '/', '\\', ';', ','}
    ensures Normalize(a + seps + b) == a + "-" + b
  {
    MappedFixed(a);
    assert forall i | 0 <= i < |seps| :: seps[i] in seps;
    MappedSeparators(a, seps);
    MappedText(a + seps, b);
    NormalEnds(a + seps + b);
    NormalEnds(a + "-" + b);
  }

  /** Any other rune that is not allowed is dropped. */
  lemma OthersDropped(a: string, c: char, b: string)
    requires Normal(a) && Normal(b)
    requires !IsSpace(c) && c !in {':', '/', '\\', ';', ',', '.', '_', '-'}
    requires !('a' <= c <= 'z') && !('A' <= c <= 'Z') && !('0' <= c <= '9')
    ensures Normalize(a + [c] + b) == a + b
  {
    MappedFixed(a);
    Sequences.Snoc(a, c);
    assert Mapped(a + [c]) == (a, false);
    MappedText(a + [c], b);
    NormalEnds(a + [c] + b);
    NormalEnds(a + b);
  }

  // ------------------------------------------------------------- derived keys

  datatype KeyPolicy = KeyPolicy(
    enabled: bool, key: string, scope: string, client: string,
    includeProvider: bool, includeModel: bool, includeUser: bool,
    metadataKeys: seq<string>, retention: string, override: bool, maxLength: int)

  function MetadataParts(keys: seq<string>, metadata: map<string, string>): seq<string> {
    if keys == [] then []
    else
      var value := if keys[0] in metadata then TrimSpace(metadata[keys[0]]) else "";
      (if value == "" then [] else [keys[0] + ":" + value]) + MetadataParts(keys[1..], metadata)
  }

  function NonEmpty(parts: seq<string>): nat {
    if parts == [] then 0 else (if TrimSpace(parts[0]) != "" then 1 else 0) + NonEmpty(parts[1..])
  }

  function Configured(p: KeyPolicy, provider: string, model: string, user: string, metadata: map<string, string>): seq<string> {
    [p.scope, p.client]
    + (if p.includeProvider then [provider] else [])
    + (if p.includeModel then [model] else [])
    + (if p.includeUser && user != "" then ["user:" + user] else [])
    + MetadataParts(Sort(p.metadataKeys), metadata)
  }

  /** derivedKey. */
  function DerivedKey(p: KeyPolicy, provider: string, model: string, user: string, metadata: map<string, string>): string {
    var parts := Configured(p, provider, model, user, metadata);
    Join(if NonEmpty(parts) == 0 then parts + [provider, model] else parts, ':')
  }

  /** The order in which the metadata keys are configured does not matter. */
  lemma DerivedKeyOrderFree(p: KeyPolicy, keys: seq<string>, provider: string, model: string, user: string, metadata: map<string, string>)
    requires multiset(keys) == multiset(p.metadataKeys)
    ensures DerivedKey(p.(metadataKeys := keys), provider, model, user, metadata) == DerivedKey(p, provider, model, user, metadata)
  {
    SortCanonical(keys, p.metadataKeys);
  }

  // ------------------------------------------------------- what enters a derived key

  /** Each part after a colon. */
  function Tailed(parts: seq<string>): string {
    if parts == [] then "" else ":" + parts[0] + Tailed(parts[1..])
  }

  lemma {:induction false} JoinTailed(parts: seq<string>)
    requires parts != []
    ensures Join(parts, ':') == parts[0] + Tailed(parts[1..])
  {
    if |parts| == 1 {
      Sequences.Unit(parts[0]);
    } else {
      JoinTailed(parts[1..]);
      assert parts[1..][0] == parts[1] && parts[1..][1..] == parts[2..];
      Sequences.Assoc(parts[0], ":", parts[1] + Tailed(parts[2..]));
      Sequences.Assoc(":", parts[1], Tailed(parts[2..]));
    }
  }

  lemma {:induction false} TailedAppend(a: seq<string>, b: seq<string>)
    ensures Tailed(a + b) == Tailed(a) + Tailed(b)
  {
    if a == [] {
      Sequences.Unit(b);
      Sequences.Unit(Tailed(b));
    } else {
      Sequences.AppendTail(a, b);
      TailedAppend(a[1..], b);
      Sequences.Assoc(":" + a[0], Tailed(a[1..]), Tailed(b));
    }
  }

  lemma TailedOne(x: string)
    ensures Tailed([x]) == ":" + x
  {
    assert [x][1..] == [];
  }

  /** The metadata that are present and not blank, in the order of the keys. */
  function MetadataText(keys: seq<string>, metadata: map<string, string>): string {
    if keys == [] then ""
    else
      (if keys[0] in metadata && TrimSpace(metadata[keys[0]]) != "" then ":" + keys[0] + ":" + TrimSpace(metadata[keys[0]]) else "")
      + MetadataText(keys[1..], metadata)
  }

  lemma {:induction false} MetadataTailed(keys: seq<string>, metadata: map<string, string>)
    ensures Tailed(MetadataParts(keys, metadata)) == MetadataText(keys, metadata)
  {
    if keys != [] {
      MetadataTailed(keys[1..], metadata);
      var value := if keys[0] in metadata then TrimSpace(metadata[keys[0]]) else "";
      var one := if value == "" then [] else [keys[0] + ":" + value];
      TailedAppend(one, MetadataParts(keys[1..], metadata));
      if value != "" {
        TailedOne(keys[0] + ":" + value);
        Sequences.Assoc(":", keys[0] + ":", value);
        Sequences.Assoc(keys[0], ":", value);
        Sequences.Assoc(":", keys[0], ":");
      }
    }
  }

  lemma NotBlank(s: string, i: nat)
    requires i < |s| && !IsSpace(s[i])
    ensures TrimSpace(s) != ""
  {
    NotBlankLeft(s, i);
  }

  lemma {:induction false} NotBlankLeft(s: string, i: nat)
    requires i < |s| && !IsSpace(s[i])
    ensures TrimLeft(s, IsSpace) != ""
  {
    if IsSpace(s[0]) {
      NotBlankLeft(s[1..], i - 1);
    }
  }

  lemma {:induction false} NonEmptyAppend(a: seq<string>, b: seq<string>)
    ensures NonEmpty(a + b) == NonEmpty(a) + NonEmpty(b)
  {
    if a == [] {
      Sequences.Unit(b);
    } else {
      Sequences.AppendTail(a, b);
      NonEmptyAppend(a[1..], b);
    }
  }

  lemma NonEmptyMaybe(yes: bool, x: string)
    ensures NonEmpty(if yes then [x] else []) == if yes && TrimSpace(x) != "" then 1 else 0
  {
    assert [x][1..] == [];
  }

  /** Every pair of a key and a value that is not blank counts. */
  lemma {:induction false} MetadataCounts(keys: seq<string>, metadata: map<string, string>)
    ensures NonEmpty(MetadataParts(keys, metadata)) == 0 <==> MetadataText(keys, metadata) == ""
  {
    if keys != [] {
      MetadataCounts(keys[1..], metadata);
      var value := if keys[0] in metadata then TrimSpace(metadata[keys[0]]) else "";
      if value != "" {
        NotBlank(keys[0] + ":" + value, |keys[0]|);
        NonEmptyAppend([keys[0] + ":" + value], MetadataParts(keys[1..], metadata));
        NonEmptyMaybe(true, keys[0] + ":" + value);
      } else {
        Sequences.Unit(MetadataParts(keys[1..], metadata));
      }
    }
  }

  /** Nothing that is configured gives anything to go by. */
  predicate NothingToGoBy(p: KeyPolicy, provider: string, model: string, user: string, metadata: map<string, string>) {
    && TrimSpace(p.scope) == "" && TrimSpace(p.client) == ""
    && (p.includeProvider ==> TrimSpace(provider) == "") && (p.includeModel ==> TrimSpace(model) == "")
    && !(p.includeUser && user != "") && MetadataText(Sort(p.metadataKeys), metadata) == ""
  }

  /** The derived key is scope and client and, as configured, provider, model, user and
      metadata, each after a colon; and then provider and model, exactly if there is
      nothing else to go by. */
  lemma DerivedText(p: KeyPolicy, provider: string, model: string, user: string, metadata: map<string, string>)
    ensures DerivedKey(p, provider, model, user, metadata) ==
      p.scope + ((":" + p.client)
      + ((if p.includeProvider then ":" + provider else "")
      + ((if p.includeModel then ":" + model else "")
      + ((if p.includeUser && user != "" then ":" + ("user:" + user) else "")
      + (MetadataText(Sort(p.metadataKeys), metadata)
      + if NothingToGoBy(p, provider, model, user, metadata) then ":" + provider + (":" + model) else "")))))
  {
    var a, b := if p.includeProvider then [provider] else [], if p.includeModel then [model] else [];
    var u, m := if p.includeUser && user != "" then ["user:" + user] else [], MetadataParts(Sort(p.metadataKeys), metadata);
    var more := if NothingToGoBy(p, provider, model, user, metadata) then [provider, model] else [];
    assert Configured(p, provider, model, user, metadata) == [p.scope, p.client] + a + b + u + m;
    CountedParts(p, provider, model, user, metadata);
    Added(p, provider, model, user, metadata, more);
    Sequences.Assoc([p.scope, p.client] + a + b + u, m, more);
    JoinFive(p.scope, p.client, a, b, u, m + more);
    TailedMaybe(p.includeProvider, provider);
    TailedMaybe(p.includeModel, model);
    TailedMaybe(p.includeUser && user != "", "user:" + user);
    TailedAppend(m, more);
    MetadataTailed(Sort(p.metadataKeys), metadata);
    TailedPair(provider, model);
  }

  lemma CountedParts(p: KeyPolicy, provider: string, model: string, user: string, metadata: map<string, string>)
    ensures NonEmpty(Configured(p, provider, model, user, metadata)) == 0 <==> NothingToGoBy(p, provider, model, user, metadata)
  {
    var a, b := if p.includeProvider then [provider] else [], if p.includeModel then [model] else [];
    var u, m := if p.includeUser && user != "" then ["user:" + user] else [], MetadataParts(Sort(p.metadataKeys), metadata);
    assert Configured(p, provider, model, user, metadata) == [p.scope, p.client] + a + b + u + m;
    NonEmptyFive(p.scope, p.client, a, b, u, m);
    NonEmptyMaybe(p.includeProvider, provider);
    NonEmptyMaybe(p.includeModel, model);
    NonEmptyMaybe(p.includeUser && user != "", "user:" + user);
    UserNotBlank(user);
    MetadataCounts(Sort(p.metadataKeys), metadata);
  }

  lemma UserNotBlank(user: string)
    ensures TrimSpace("user:" + user) != ""
  {
    assert ("user:" + user)[0] == 'u';
    NotBlank("user:" + user, 0);
  }

  lemma NonEmptyFive(x: string, y: string, a: seq<string>, b: seq<string>, u: seq<string>, m: seq<string>)
    ensures NonEmpty([x, y] + a + b + u + m) ==
      (if TrimSpace(x) != "" then 1 else 0) + (if TrimSpace(y) != "" then 1 else 0) + NonEmpty(a) + NonEmpty(b) + NonEmpty(u) + NonEmpty(m)
  {
    NonEmptyAppend([x, y] + a + b + u, m);
    NonEmptyAppend([x, y] + a + b, u);
    NonEmptyAppend([x, y] + a, b);
    NonEmptyAppend([x, y], a);
    NonEmptyAppend([x], [y]);
    assert [x, y] == [x] + [y];
    NonEmptyMaybe(true, x);
    NonEmptyMaybe(true, y);
  }

  lemma Added(p: KeyPolicy, provider: string, model: string, user: string, metadata: map<string, string>, more: seq<string>)
    requires more == if NonEmpty(Configured(p, provider, model, user, metadata)) == 0 then [provider, model] else []
    ensures DerivedKey(p, provider, model, user, metadata) == Join(Configured(p, provider, model, user, metadata) + more, ':')
  {
    Sequences.Unit(Configured(p, provider, model, user, metadata));
  }

  lemma TailedPair(x: string, y: string)
    ensures Tailed([x, y]) == ":" + x + (":" + y)
  {
    TailedAppend([x], [y]);
    TailedOne(x);
    TailedOne(y);
    assert [x, y] == [x] + [y];
  }

  lemma TailedMaybe(yes: bool, x: string)
    ensures Tailed(if yes then [x] else []) == if yes then ":" + x else ""
  {
    TailedOne(x);
  }

  lemma JoinFive(x: string, y: string, a: seq<string>, b: seq<string>, u: seq<string>, m: seq<string>)
    ensures Join([x, y] + a + b + u + m, ':') == x + ((":" + y) + (Tailed(a) + (Tailed(b) + (Tailed(u) + Tailed(m)))))
  {
    var rest := a + (b + (u + m));
    Regroup([x, y], a, b, u, m);
    Sequences.Assoc([x], [y], rest);
    assert [x, y] == [x] + [y];
    JoinTwo(x, y, rest);
    TailedAppend(a, b + (u + m));
    TailedAppend(b, u + m);
    TailedAppend(u, m);
  }

  lemma JoinTwo(x: string, y: string, rest: seq<string>)
    ensures Join([x] + ([y] + rest), ':') == x + ((":" + y) + Tailed(rest))
  {
    Sequences.Cons(x, [y] + rest);
    Sequences.Cons(y, rest);
    JoinTailed([x] + ([y] + rest));
  }

  lemma Regroup<T>(h: seq<T>, a: seq<T>, b: seq<T>, u: seq<T>, m: seq<T>)
    ensures h + a + b + u + m == h + (a + (b + (u + m)))
  {
    Sequences.Assoc(h + a + b, u, m);
    Sequences.Assoc(h + a, b, u + m);
    Sequences.Assoc(h, a, b + (u + m));
  }
}
