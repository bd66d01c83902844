/** The request policy of request_policy.go and request_limits.go on the values of
    requests. */
module Policy {
  import opened Options
  import opened Messages
  import opened Requests
  import opened Trees
  import opened Settings
  import Text
  import Billing
  import CacheKey

  // -------------------------------------------------------------------- limits

  /** RequestLimits; `show` is the length of what fmt.Sprint prints for a value of a type
      that anySize does not know. */
  datatype Limits = Limits(
    maxMessages: int, maxTextBytes: int, maxMediaBytes: int, maxTools: int, maxToolSchemaBytes: int,
    maxMetadataKeys: int, maxOptionKeys: int, show: Tree -> nat)

  /** What is counted in a request. */
  datatype Counts = Counts(messages: nat, tools: nat, metadata: nat, options: nat, text: nat, media: nat, schemas: nat)

  function BlockText(b: BlockV): nat {
    match b
    case TextV(t) => Text.Bytes(t)
    case TextPtrV(Some(t)) => Text.Bytes(t)
    case _ => 0
  }

  function BlockMedia(b: BlockV): nat {
    if b.MediaV? then b.bytes else 0
  }

  function Total<T>(xs: seq<T>, f: T -> nat): nat {
    if xs == [] then 0 else Total(xs[..|xs| - 1], f) + f(xs[|xs| - 1])
  }

  function CallText(c: ToolCall): nat {
    Text.Bytes(c.name) + Text.Bytes(c.arguments)
  }

  function MessageText(m: MessageV): nat {
    Total(m.content, BlockText) + Total(m.toolCalls, CallText)
    + Text.Bytes(m.toolCallID) + Text.Bytes(m.name)
  }

  function MessageMedia(m: MessageV): nat {
    Total(m.content, BlockMedia)
  }

  predicate Fits(l: Limits, c: Counts) {
    && !(l.maxMessages > 0 && c.messages > l.maxMessages)
    && !(l.maxTools > 0 && c.tools > l.maxTools)
    && !(l.maxMetadataKeys > 0 && c.metadata > l.maxMetadataKeys)
    && !(l.maxOptionKeys > 0 && c.options > l.maxOptionKeys)
    && !(l.maxTextBytes > 0 && c.text > l.maxTextBytes)
    && !(l.maxMediaBytes > 0 && c.media > l.maxMediaBytes)
    && !(l.maxToolSchemaBytes > 0 && c.schemas > l.maxToolSchemaBytes)
  }

  ghost function CountsOf(v: RequestV, show: Tree -> nat): Counts {
    var s := v.settings;
    Counts(|v.messages|, |s.tools|, |v.metadata|, if s.options.Branch? then |s.options.kids| else 0,
      Total(v.messages, MessageText), Total(v.messages, MessageMedia), SchemaSize(s.tools, show))
  }

  /** Validate succeeds. */
  ghost predicate Allows(l: Limits, v: RequestV) {
    Fits(l, CountsOf(v, l.show))
  }

  // ---------------------------------------------------------- policy on values

  datatype Policy = Policy(
    limits: Limits, store: Option<bool>, promptCache: CacheKey.KeyPolicy,
    breaker: bool, billingHeader: bool, replacement: string)

  datatype Verdict<+T> = Applied(value: T) | Rejected | Panicked

  function FillStore(p: Policy, v: RequestV): RequestV {
    if p.store.Some? && v.store.None? then v.(store := p.store) else v
  }

  /** The configured or derived key, before it is built. */
  function WantedKey(p: CacheKey.KeyPolicy, provider: string, model: string, v: RequestV): string {
    var key := Text.TrimSpace(p.key);
    if key == "" then CacheKey.DerivedKey(p, provider, model, v.user, v.metadata) else key
  }

  /** The cache options to start from, with the retention default filled in. */
  function Retained(p: CacheKey.KeyPolicy, v: RequestV): CacheV {
    var c := if v.cache.None? then CacheV("", "", "", None) else v.cache.value;
    if p.retention != "" && c.retention == "" then c.(retention := p.retention) else c
  }

  /** PromptCachePolicy.apply; None is the builder's panic. */
  function FillCache(p: CacheKey.KeyPolicy, provider: string, model: string, v: RequestV, digest: string -> string): Option<RequestV>
    requires CacheKey.IsDigest(digest)
  {
    if !p.enabled then Some(v)
    else
      var c := Retained(p, v);
      var key := WantedKey(p, provider, model, v);
      if (c.key != "" && !p.override) || key == "" then Some(v.(cache := Some(c)))
      else
        match CacheKey.Build(p.maxLength, Text.Split(key, ':'), digest)
        case None => None
        case Some(k) => Some(v.(cache := Some(c.(key := k))))
  }

  function RewriteBlock(b: BlockV, replacement: string): BlockV {
    match b
    case TextV(t) => TextV(Billing.Rewrite(t, replacement))
    case TextPtrV(Some(t)) => TextPtrV(Some(Billing.Rewrite(t, replacement)))
    case _ => b
  }

  function RewriteBlocks(bs: seq<BlockV>, replacement: string): (r: seq<BlockV>)
    ensures |r| == |bs| && forall i | 0 <= i < |bs| :: r[i] == RewriteBlock(bs[i], replacement)
  {
    seq(|bs|, i requires 0 <= i < |bs| => RewriteBlock(bs[i], replacement))
  }

  function RewriteMessage(m: MessageV, replacement: string): MessageV {
    if m.role == "system" then m.(content := RewriteBlocks(m.content, replacement)) else m
  }

  function RewriteMessages(ms: seq<MessageV>, replacement: string): (r: seq<MessageV>)
    ensures |r| == |ms| && forall i | 0 <= i < |ms| :: r[i] == RewriteMessage(ms[i], replacement)
  {
    seq(|ms|, i requires 0 <= i < |ms| => RewriteMessage(ms[i], replacement))
  }

  /** How many blocks the rewrite changes: the number the normaliser reports. */
  function ChangedBlocks(bs: seq<BlockV>, replacement: string): nat {
    if bs == [] then 0
    else ChangedBlocks(bs[..|bs| - 1], replacement) + if RewriteBlock(bs[|bs| - 1], replacement) != bs[|bs| - 1] then 1 else 0
  }

  function ChangedIn(m: MessageV, replacement: string): nat {
    if m.role == "system" then ChangedBlocks(m.content, replacement) else 0
  }

  function Changed(ms: seq<MessageV>, replacement: string): nat {
    if ms == [] then 0 else Changed(ms[..|ms| - 1], replacement) + ChangedIn(ms[|ms| - 1], replacement)
  }

  /** CacheBreakerPolicy.apply, given what normalising makes of the messages. */
  function Breaks(p: Policy, v: RequestV, normalised: seq<MessageV>): RequestV {
    if p.breaker && p.billingHeader then v.(messages := normalised) else v
  }

  /** The rewriting part of ApplyContext; None is the key builder's panic. */
  function TransformWith(p: Policy, provider: string, model: string, v: RequestV, normalised: seq<MessageV>, digest: string -> string): Option<RequestV>
    requires CacheKey.IsDigest(digest)
  {
    match FillCache(p.promptCache, provider, model, FillStore(p, v), digest)
    case None => None
    case Some(u) => Some(Breaks(p, u, normalised))
  }

  /** ApplyContext, the reporter aside: limits are checked before and after. */
  ghost function ApplyWith(p: Policy, provider: string, model: string, v: RequestV, normalised: seq<MessageV>, digest: string -> string): Verdict<RequestV>
    requires CacheKey.IsDigest(digest)
  {
    if !Allows(p.limits, v) then Rejected
    else
      match TransformWith(p, provider, model, v, normalised, digest)
      case None => Panicked
      case Some(w) => if Allows(p.limits, w) then Applied(w) else Rejected
  }

  /** The request that the rewriting part leaves: a panic comes after the store flag and the
      retention are written. */
  function Transformed(p: Policy, provider: string, model: string, v: RequestV, normalised: seq<MessageV>, digest: string -> string): RequestV
    requires CacheKey.IsDigest(digest)
  {
    match TransformWith(p, provider, model, v, normalised, digest)
    case None => FillStore(p, v).(cache := Some(Retained(p.promptCache, FillStore(p, v))))
    case Some(w) => w
  }

  /** The request that ApplyContext leaves, whatever it answers: a rejection by the first
      check changes nothing, one by the second everything. */
  ghost function LeftWith(p: Policy, provider: string, model: string, v: RequestV, normalised: seq<MessageV>, digest: string -> string): RequestV
    requires CacheKey.IsDigest(digest)
  {
    if !Allows(p.limits, v) then v else Transformed(p, provider, model, v, normalised, digest)
  }

  /** The answer alone. */
  function Answer(v: Verdict<RequestV>): Verdict<()> {
    match v
    case Applied(_) => Applied(())
    case Rejected => Rejected
    case Panicked => Panicked
  }

  lemma AnswerLeft(p: Policy, provider: string, model: string, v: RequestV, normalised: seq<MessageV>, digest: string -> string)
    requires CacheKey.IsDigest(digest)
    ensures var u, answer := Transformed(p, provider, model, v, normalised, digest), ApplyWith(p, provider, model, v, normalised, digest);
      && (answer.Applied? ==> answer == Applied(LeftWith(p, provider, model, v, normalised, digest)))
      && Answer(answer) ==
           if !Allows(p.limits, v) then Rejected
           else if TransformWith(p, provider, model, v, normalised, digest).None? then Panicked
           else if Allows(p.limits, u) then Applied(()) else Rejected
  {
  }

  /** The same for messages that share no text with others, where normalising is a function
      of each message alone. */
  ghost function Apply(p: Policy, provider: string, model: string, v: RequestV, digest: string -> string): Verdict<RequestV>
    requires CacheKey.IsDigest(digest)
  {
    ApplyWith(p, provider, model, v, RewriteMessages(v.messages, Billing.Replacement(p.replacement)), digest)
  }

  ghost function Left(p: Policy, provider: string, model: string, v: RequestV, digest: string -> string): RequestV
    requires CacheKey.IsDigest(digest)
  {
    LeftWith(p, provider, model, v, RewriteMessages(v.messages, Billing.Replacement(p.replacement)), digest)
  }

  lemma RewriteBlockTwice(b: BlockV, replacement: string)
    requires Billing.IsValue(replacement)
    ensures RewriteBlock(RewriteBlock(b, replacement), replacement) == RewriteBlock(b, replacement)
  {
    match b
    case TextV(t) => Billing.Idempotent(t, replacement);
    case TextPtrV(Some(t)) => Billing.Idempotent(t, replacement);
    case _ =>
  }

  lemma RewriteMessageTwice(m: MessageV, replacement: string)
    requires Billing.IsValue(replacement)
    ensures RewriteMessage(RewriteMessage(m, replacement), replacement) == RewriteMessage(m, replacement)
  {
    forall i | 0 <= i < |m.content| {
      RewriteBlockTwice(m.content[i], replacement);
    }
    var bs := RewriteBlocks(m.content, replacement);
    assert RewriteBlocks(bs, replacement) == bs;
  }

  lemma RewriteTwice(ms: seq<MessageV>, replacement: string)
    requires Billing.IsValue(replacement)
    ensures RewriteMessages(RewriteMessages(ms, replacement), replacement) == RewriteMessages(ms, replacement)
  {
    forall i | 0 <= i < |ms| {
      RewriteMessageTwice(ms[i], replacement);
    }
  }

  lemma {:induction false} NothingChanged(bs: seq<BlockV>, replacement: string)
    requires forall i | 0 <= i < |bs| :: RewriteBlock(bs[i], replacement) == bs[i]
    ensures ChangedBlocks(bs, replacement) == 0
  {
    if bs != [] {
      NothingChanged(bs[..|bs| - 1], replacement);
    }
  }

  lemma MessageUnchanged(m: MessageV, replacement: string)
    requires Billing.IsValue(replacement)
    ensures ChangedIn(RewriteMessage(m, replacement), replacement) == 0
  {
    var r := RewriteMessage(m, replacement);
    RewriteMessageTwice(m, replacement);
    if r.role == "system" {
      assert RewriteBlocks(r.content, replacement) == r.content;
      NothingChanged(r.content, replacement);
    }
  }

  /** A second normalisation pass reports no change. */
  lemma {:induction false} SecondPassReportsNone(ms: seq<MessageV>, replacement: string)
    requires Billing.IsValue(replacement)
    ensures Changed(RewriteMessages(ms, replacement), replacement) == 0
  {
    if ms != [] {
      var n := |ms| - 1;
      SecondPassReportsNone(ms[..n], replacement);
      MessageUnchanged(ms[n], replacement);
      assert RewriteMessages(ms, replacement)[..n] == RewriteMessages(ms[..n], replacement);
    }
  }

  lemma CacheFixed(p: CacheKey.KeyPolicy, provider: string, model: string, v: RequestV, w: RequestV, digest: string -> string)
    requires CacheKey.IsDigest(digest) && FillCache(p, provider, model, v, digest).Some?
    requires w.cache == FillCache(p, provider, model, v, digest).value.cache && w.user == v.user && w.metadata == v.metadata
    ensures FillCache(p, provider, model, w, digest) == Some(w)
  {
    assert WantedKey(p, provider, model, w) == WantedKey(p, provider, model, v);
  }

  lemma CacheWrites(p: CacheKey.KeyPolicy, provider: string, model: string, v: RequestV, digest: string -> string)
    requires CacheKey.IsDigest(digest) && FillCache(p, provider, model, v, digest).Some?
    ensures var w := FillCache(p, provider, model, v, digest).value;
      && w == v.(cache := w.cache)
      && (v.cache.Some? ==> CacheKept(p, v.cache.value, w.cache))
  {
  }

  /** Only key and retention of existing cache options are written, and explicit
      settings survive unless the policy overrides the key. */
  predicate CacheKept(p: CacheKey.KeyPolicy, before: CacheV, after: Option<CacheV>) {
    && after.Some?
    && after.value == before.(key := after.value.key, retention := after.value.retention)
    && (before.retention != "" ==> after.value.retention == before.retention)
    && (before.key != "" && !p.override ==> after.value.key == before.key)
  }

  lemma TransformFixed(p: Policy, provider: string, model: string, v: RequestV, n: seq<MessageV>, again: seq<MessageV>, digest: string -> string)
    requires CacheKey.IsDigest(digest) && TransformWith(p, provider, model, v, n, digest).Some?
    requires p.breaker && p.billingHeader ==> again == n
    ensures var w := TransformWith(p, provider, model, v, n, digest).value;
      TransformWith(p, provider, model, w, again, digest) == Some(w)
  {
    var s := FillStore(p, v);
    CacheWrites(p.promptCache, provider, model, s, digest);
    var w := TransformWith(p, provider, model, v, n, digest).value;
    CacheFixed(p.promptCache, provider, model, s, w, digest);
  }

  /** Applying a policy that succeeded a second time succeeds again and leaves the request
      as it is, if normalising has nothing left to change. */
  lemma FixpointWith(p: Policy, provider: string, model: string, v: RequestV, n: seq<MessageV>, again: seq<MessageV>, digest: string -> string)
    requires CacheKey.IsDigest(digest) && ApplyWith(p, provider, model, v, n, digest).Applied?
    requires p.breaker && p.billingHeader ==> again == n
    ensures var w := ApplyWith(p, provider, model, v, n, digest).value;
      ApplyWith(p, provider, model, w, again, digest) == Applied(w)
  {
    TransformFixed(p, provider, model, v, n, again, digest);
  }

  /** Where no text is shared it has nothing left. */
  lemma Fixpoint(p: Policy, provider: string, model: string, v: RequestV, digest: string -> string)
    requires CacheKey.IsDigest(digest) && Apply(p, provider, model, v, digest).Applied?
    ensures var w := Apply(p, provider, model, v, digest).value;
      Apply(p, provider, model, w, digest) == Applied(w)
  {
    var replacement := Billing.Replacement(p.replacement);
    var n, w := RewriteMessages(v.messages, replacement), Apply(p, provider, model, v, digest).value;
    RewriteTwice(v.messages, replacement);
    FixpointWith(p, provider, model, v, n, RewriteMessages(w.messages, replacement), digest);
  }

  /** The same block, but perhaps for the value of its billing header. */
  ghost predicate SameButValue(b: BlockV, c: BlockV) {
    match (b, c)
    case (TextV(t), TextV(u)) => SameText(t, u)
    case (TextPtrV(Some(t)), TextPtrV(Some(u))) => SameText(t, u)
    case _ => b == c
  }

  ghost predicate SameText(t: string, u: string) {
    t == u || exists v :: u == Billing.Replaced(t, Billing.Value(t), v)
  }

  lemma TextSame(b: BlockV, replacement: string)
    ensures SameButValue(b, RewriteBlock(b, replacement))
  {
    match b
    case TextV(t) => Billing.RewriteByPattern(t, replacement);
    case TextPtrV(Some(t)) => Billing.RewriteByPattern(t, replacement);
    case _ =>
  }

  ghost predicate SameBlocks(a: seq<BlockV>, b: seq<BlockV>) {
    |a| == |b| && forall j | 0 <= j < |a| :: SameButValue(a[j], b[j])
  }

  lemma MessageSame(m: MessageV, replacement: string)
    ensures SameBlocks(m.content, m.content) && SameBlocks(m.content, RewriteMessage(m, replacement).content)
  {
    forall j | 0 <= j < |m.content| ensures SameButValue(m.content[j], RewriteBlock(m.content[j], replacement)) {
      TextSame(m.content[j], replacement);
    }
  }

  /** The same messages, but perhaps for values of billing headers. */
  ghost predicate HeadersOnly(before: seq<MessageV>, after: seq<MessageV>) {
    |before| == |after| && forall i | 0 <= i < |before| ::
      && after[i] == before[i].(content := after[i].content)
      && SameBlocks(before[i].content, after[i].content)
  }

  lemma RewriteHeadersOnly(ms: seq<MessageV>, replacement: string)
    ensures HeadersOnly(ms, ms) && HeadersOnly(ms, RewriteMessages(ms, replacement))
  {
    forall i | 0 <= i < |ms|
      ensures SameBlocks(ms[i].content, ms[i].content) && SameBlocks(ms[i].content, RewriteMessages(ms, replacement)[i].content)
    {
      MessageSame(ms[i], replacement);
    }
  }

  /** The store flag and the cache options are the fields that the defaults write. */
  ghost predicate DefaultsOnly(p: Policy, v: RequestV, w: RequestV) {
    && w == v.(store := w.store, cache := w.cache)
    && (v.store.Some? ==> w.store == v.store)
    && (v.cache.Some? ==> CacheKept(p.promptCache, v.cache.value, w.cache))
  }

  lemma DefaultsWrite(p: Policy, provider: string, model: string, v: RequestV, digest: string -> string)
    requires CacheKey.IsDigest(digest)
    ensures var s := FillStore(p, v);
      match FillCache(p.promptCache, provider, model, s, digest)
      case None => DefaultsOnly(p, v, s.(cache := Some(Retained(p.promptCache, s))))
      case Some(u) => DefaultsOnly(p, v, u)
  {
    var s := FillStore(p, v);
    if FillCache(p.promptCache, provider, model, s, digest).Some? {
      CacheWrites(p.promptCache, provider, model, s, digest);
    }
  }

  /** Whatever its answer, a policy writes only the store flag, the cache key and retention,
      and header values, if that is all normalising writes; explicit settings of the caller
      survive. */
  lemma WritesOnlyWith(p: Policy, provider: string, model: string, v: RequestV, n: seq<MessageV>, digest: string -> string)
    requires CacheKey.IsDigest(digest) && HeadersOnly(v.messages, n)
    ensures var w := LeftWith(p, provider, model, v, n, digest);
      && DefaultsOnly(p, v, w.(messages := v.messages))
      && HeadersOnly(v.messages, w.messages) && (w.messages == v.messages || w.messages == n)
  {
    RewriteHeadersOnly(v.messages, "");
    DefaultsWrite(p, provider, model, v, digest);
  }

  /** Where no text is shared, those are headers of system messages. */
  lemma WritesOnly(p: Policy, provider: string, model: string, v: RequestV, digest: string -> string)
    requires CacheKey.IsDigest(digest)
    ensures var w := Left(p, provider, model, v, digest);
      && DefaultsOnly(p, v, w.(messages := v.messages))
      && HeadersOnly(v.messages, w.messages)
      && forall i | 0 <= i < |v.messages| && v.messages[i].role != "system" :: w.messages[i] == v.messages[i]
    ensures Apply(p, provider, model, v, digest).Applied? ==>
      Apply(p, provider, model, v, digest) == Applied(Left(p, provider, model, v, digest))
  {
    AnswerLeft(p, provider, model, v, RewriteMessages(v.messages, Billing.Replacement(p.replacement)), digest);
    var n := RewriteMessages(v.messages, Billing.Replacement(p.replacement));
    RewriteHeadersOnly(v.messages, Billing.Replacement(p.replacement));
    WritesOnlyWith(p, provider, model, v, n, digest);
  }

  // ------------------------------------------------------------ what is written for sure

  /** The cache options that a request brings. */
  function Brought(v: RequestV): CacheV {
    if v.cache.Some? then v.cache.value else CacheV("", "", "", None)
  }

  /** The store flag that a policy leaves: the caller's, or else the default, once the first
      check has passed. */
  lemma StoreFilled(p: Policy, provider: string, model: string, v: RequestV, n: seq<MessageV>, digest: string -> string)
    requires CacheKey.IsDigest(digest)
    ensures var w := LeftWith(p, provider, model, v, n, digest);
      w.store == if Allows(p.limits, v) && v.store.None? then p.store else v.store
  {
  }

  /** What the defaults make of the cache options of a request. */
  lemma CacheFilled(k: CacheKey.KeyPolicy, provider: string, model: string, v: RequestV, digest: string -> string)
    requires CacheKey.IsDigest(digest) && k.enabled
    ensures var was := Brought(v);
      var kept := was.(retention := if was.retention != "" then was.retention else k.retention);
      var text := if Text.TrimSpace(k.key) != "" then Text.TrimSpace(k.key) else CacheKey.DerivedKey(k, provider, model, v.user, v.metadata);
      && Retained(k, v) == kept
      && FillCache(k, provider, model, v, digest) ==
           if (was.key != "" && !k.override) || text == "" then Some(v.(cache := Some(kept)))
           else match CacheKey.Build(k.maxLength, Text.Split(text, ':'), digest)
             case Some(key) => Some(v.(cache := Some(kept.(key := key))))
             case None => None
  {
  }

  lemma LeftCache(p: Policy, provider: string, model: string, v: RequestV, n: seq<MessageV>, digest: string -> string)
    requires CacheKey.IsDigest(digest)
    ensures var w, s := LeftWith(p, provider, model, v, n, digest), FillStore(p, v);
      var r := FillCache(p.promptCache, provider, model, s, digest);
      && s == v.(store := s.store)
      && (!Allows(p.limits, v) ==> w.cache == v.cache && !ApplyWith(p, provider, model, v, n, digest).Panicked?)
      && (Allows(p.limits, v) ==>
            && w.cache == (if r.Some? then r.value.cache else Some(Retained(p.promptCache, s)))
            && (ApplyWith(p, provider, model, v, n, digest).Panicked? <==> r.None?))
  {
  }

  /** The retention: the caller's, or else the configured one. */
  lemma RetentionFilled(p: Policy, provider: string, model: string, v: RequestV, n: seq<MessageV>, digest: string -> string)
    requires CacheKey.IsDigest(digest)
    ensures var w := LeftWith(p, provider, model, v, n, digest);
      if Allows(p.limits, v) && p.promptCache.enabled
      then w.cache.Some? && w.cache.value.retention == if Brought(v).retention != "" then Brought(v).retention else p.promptCache.retention
      else w.cache == v.cache
  {
    LeftCache(p, provider, model, v, n, digest);
    if p.promptCache.enabled {
      CacheFilled(p.promptCache, provider, model, FillStore(p, v), digest);
    }
  }

  /** The key: the caller's, unless there is none or it is overridden; then the one built
      from the configured text, or from the derived one if that is blank. */
  lemma KeyFilled(p: Policy, provider: string, model: string, v: RequestV, n: seq<MessageV>, digest: string -> string)
    requires CacheKey.IsDigest(digest) && Allows(p.limits, v) && p.promptCache.enabled
    ensures var w, k, answer := LeftWith(p, provider, model, v, n, digest), p.promptCache, ApplyWith(p, provider, model, v, n, digest);
      var text := if Text.TrimSpace(k.key) != "" then Text.TrimSpace(k.key) else CacheKey.DerivedKey(k, provider, model, v.user, v.metadata);
      && w.cache.Some?
      && if (Brought(v).key != "" && !k.override) || text == "" then w.cache.value.key == Brought(v).key && !answer.Panicked?
         else match CacheKey.Build(k.maxLength, Text.Split(text, ':'), digest)
           case Some(key) => w.cache.value.key == key && !answer.Panicked?
           case None => w.cache.value.key == Brought(v).key && answer.Panicked?
  {
    LeftCache(p, provider, model, v, n, digest);
    CacheFilled(p.promptCache, provider, model, FillStore(p, v), digest);
  }

  /** And the messages: what normalising makes of them, if that is configured. */
  lemma MessagesFilled(p: Policy, provider: string, model: string, v: RequestV, n: seq<MessageV>, digest: string -> string)
    requires CacheKey.IsDigest(digest)
    ensures var w := LeftWith(p, provider, model, v, n, digest);
      w.messages == if Allows(p.limits, v) && p.breaker && p.billingHeader && !ApplyWith(p, provider, model, v, n, digest).Panicked? then n else v.messages
  {
  }

  /** In a message of the system every text is rewritten and all else stays; messages of
      other roles stay. */
  lemma RewrittenByRole(ms: seq<MessageV>, replacement: string, i: nat, j: nat)
    requires i < |ms| && j < |ms[i].content|
    ensures var w := RewriteMessages(ms, replacement);
      && |w| == |ms| && |w[i].content| == |ms[i].content|
      && w[i].content[j] ==
           if ms[i].role != "system" then ms[i].content[j]
           else match ms[i].content[j]
             case TextV(t) => TextV(Billing.Rewrite(t, replacement))
             case TextPtrV(Some(t)) => TextPtrV(Some(Billing.Rewrite(t, replacement)))
             case other => other
  {
  }

  // ------------------------------------------------------------- what the limits measure

  /** Limits that are not positive do not count; a request is refused exactly if it exceeds
      one that does. */
  lemma AllowsExactly(l: Limits, v: RequestV)
    requires v.settings.options.Branch?
    ensures Allows(l, v) <==>
      && (l.maxMessages <= 0 || |v.messages| <= l.maxMessages)
      && (l.maxTools <= 0 || |v.settings.tools| <= l.maxTools)
      && (l.maxMetadataKeys <= 0 || |v.metadata| <= l.maxMetadataKeys)
      && (l.maxOptionKeys <= 0 || |v.settings.options.kids| <= l.maxOptionKeys)
      && (l.maxTextBytes <= 0 || Total(v.messages, MessageText) <= l.maxTextBytes)
      && (l.maxMediaBytes <= 0 || Total(v.messages, MessageMedia) <= l.maxMediaBytes)
      && (l.maxToolSchemaBytes <= 0 || SchemaSize(v.settings.tools, l.show) <= l.maxToolSchemaBytes)
  {
  }

  lemma TotalSnoc<T>(xs: seq<T>, x: T, f: T -> nat)
    ensures Total(xs + [x], f) == Total(xs, f) + f(x)
  {
    assert (xs + [x])[..|xs|] == xs;
  }

  /** The bytes of text of messages are those of all texts in blocks, of names and
      arguments of calls, and of the names and ids of messages. */
  lemma TextMeasured(ms: seq<MessageV>, m: MessageV, b: BlockV, c: ToolCall)
    ensures Total<MessageV>([], MessageText) == 0
    ensures Total(ms + [m], MessageText) == Total(ms, MessageText) + MessageText(m)
    ensures MessageText(m.(content := [], toolCalls := [], name := "", toolCallID := "")) == 0
    ensures MessageText(m) == MessageText(m.(name := "")) + Text.Bytes(m.name)
    ensures MessageText(m) == MessageText(m.(toolCallID := "")) + Text.Bytes(m.toolCallID)
    ensures MessageText(m.(toolCalls := m.toolCalls + [c])) == MessageText(m) + Text.Bytes(c.name) + Text.Bytes(c.arguments)
    ensures MessageText(m.(content := m.content + [b])) == MessageText(m)
      + match b case TextV(t) => Text.Bytes(t) case TextPtrV(Some(t)) => Text.Bytes(t) case TextPtrV(None) => 0 case MediaV(_) => 0 case OtherV(_) => 0
  {
    TotalSnoc(ms, m, MessageText);
    TotalSnoc(m.toolCalls, c, CallText);
    TotalSnoc(m.content, b, BlockText);
  }

  lemma MediaMeasured(ms: seq<MessageV>, m: MessageV, b: BlockV)
    ensures Total<MessageV>([], MessageMedia) == 0
    ensures Total(ms + [m], MessageMedia) == Total(ms, MessageMedia) + MessageMedia(m)
    ensures MessageMedia(m.(content := [])) == 0
    ensures MessageMedia(m.(content := m.content + [b])) == MessageMedia(m) + if b.MediaV? then b.bytes else 0
  {
    TotalSnoc(ms, m, MessageMedia);
    TotalSnoc(m.content, b, BlockMedia);
  }
}
