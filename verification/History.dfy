/** The conversation history of agent.go: grouping into turns and trimming. */
module History {
  import opened Requests
  import Sequences

  type Msgs = seq<MessageV>

  predicate IsSystem(m: MessageV) { m.role == "system" }

  predicate IsTool(m: MessageV) { m.role == "tool" }

  /** An assistant message that asks for tools. */
  predicate IsCall(m: MessageV) { m.role == "assistant" && |m.toolCalls| > 0 }

  function System(ms: Msgs): Msgs {
    if ms == [] then []
    else
      var before, last := System(ms[..|ms| - 1]), ms[|ms| - 1];
      if IsSystem(last) then before + [last] else before
  }

  function Rest(ms: Msgs): Msgs {
    if ms == [] then []
    else
      var before, last := Rest(ms[..|ms| - 1]), ms[|ms| - 1];
      if IsSystem(last) then before else before + [last]
  }

  // -------------------------------------------------------------------- grouping

  /** The number of tool messages at the front. */
  function ToolRun(ms: Msgs): (n: nat)
    ensures n <= |ms|
  {
    if ms != [] && IsTool(ms[0]) then 1 + ToolRun(ms[1..]) else 0
  }

  /** The length of the first group. */
  function GroupLen(ms: Msgs): (n: nat)
    requires ms != []
    ensures 1 <= n <= |ms|
  {
    if IsCall(ms[0]) then 1 + ToolRun(ms[1..]) else 1
  }

  function GroupTurns(ms: Msgs): seq<Msgs> {
    if ms == [] then [] else [ms[..GroupLen(ms)]] + GroupTurns(ms[GroupLen(ms)..])
  }

  function Flatten(gs: seq<Msgs>): Msgs {
    if gs == [] then [] else gs[0] + Flatten(gs[1..])
  }

  function Total(gs: seq<Msgs>): nat {
    if gs == [] then 0 else |gs[0]| + Total(gs[1..])
  }

  lemma {:induction false} FlattenGroups(ms: Msgs)
    ensures Flatten(GroupTurns(ms)) == ms
  {
    if ms != [] {
      var n := GroupLen(ms);
      FlattenGroups(ms[n..]);
      assert ms == ms[..n] + ms[n..];
      assert GroupTurns(ms)[1..] == GroupTurns(ms[n..]);
    }
  }

  lemma {:induction false} TotalIsLength(gs: seq<Msgs>)
    ensures Total(gs) == |Flatten(gs)|
  {
    if gs != [] {
      TotalIsLength(gs[1..]);
    }
  }

  /** Every suffix of the groups is the grouping of what it holds. */
  lemma {:induction false} SuffixGroups(ms: Msgs, k: nat)
    requires k <= |GroupTurns(ms)|
    ensures GroupTurns(Flatten(GroupTurns(ms)[k..])) == GroupTurns(ms)[k..]
    decreases k
  {
    if k == 0 {
      FlattenGroups(ms);
      assert GroupTurns(ms)[0..] == GroupTurns(ms);
    } else {
      var n := GroupLen(ms);
      SuffixGroups(ms[n..], k - 1);
      assert GroupTurns(ms)[k..] == GroupTurns(ms[n..])[k - 1..];
    }
  }

  lemma {:induction false} RunLength(ms: Msgs, n: nat)
    requires n <= |ms| && (forall k | 0 <= k < n :: IsTool(ms[k])) && (n < |ms| ==> !IsTool(ms[n]))
    ensures ToolRun(ms) == n
  {
    if n > 0 {
      RunLength(ms[1..], n - 1);
    }
  }

  /** The end of the group that starts at i. */
  method GroupEnd(msgs: Msgs, i: nat) returns (j: nat)
    requires i < |msgs|
    ensures i < j <= |msgs| && j == i + GroupLen(msgs[i..])
  {
    j := i + 1;
    ghost var after := msgs[i + 1..];
    if IsCall(msgs[i]) {
      while j < |msgs| && IsTool(msgs[j])
        invariant i + 1 <= j <= |msgs|
        invariant forall k | 0 <= k < j - (i + 1) :: IsTool(after[k])
      {
        j := j + 1;
      }
      assert msgs[i..][1..] == after;
      RunLength(after, j - (i + 1));
    }
  }

  lemma GroupStep(ms: Msgs, i: nat, j: nat)
    requires i < |ms| && j == i + GroupLen(ms[i..])
    ensures j <= |ms| && GroupTurns(ms[i..]) == [ms[i..j]] + GroupTurns(ms[j..])
  {
    assert ms[i..][..j - i] == ms[i..j];
    assert ms[i..][j - i..] == ms[j..];
  }

  /** groupTurns. */
  method GroupTurnsLoop(msgs: Msgs) returns (groups: seq<Msgs>)
    ensures groups == GroupTurns(msgs)
    ensures Flatten(groups) == msgs
  {
    groups := [];
    var i := 0;
    assert msgs[0..] == msgs;
    while i < |msgs|
      invariant 0 <= i <= |msgs|
      invariant groups + GroupTurns(msgs[i..]) == GroupTurns(msgs)
    {
      var j := GroupEnd(msgs, i);
      GroupStep(msgs, i, j);
      groups := groups + [msgs[i..j]];
      i := j;
    }
    FlattenGroups(msgs);
  }

  // -------------------------------------------------------------------- trimming

  /** The groups to keep, from the other end: drop the oldest group until the rest
      fits or only the newest is left. */
  function Kept(gs: seq<Msgs>, keep: int): seq<Msgs> {
    if |gs| <= 1 || Total(gs) <= keep then gs else Kept(gs[1..], keep)
  }

  function Trim(ms: Msgs, max: int): Msgs {
    if max <= 0 || |ms| <= max then ms
    else if max - |System(ms)| <= 0 then System(ms)
    else System(ms) + Flatten(Kept(GroupTurns(Rest(ms)), max - |System(ms)|))
  }

  lemma {:induction false} KeptIs(gs: seq<Msgs>, keep: int, j: nat, s: nat)
    requires j <= s < |gs|
    requires forall k | j <= k < s :: Total(gs[k..]) > keep
    requires Total(gs[s..]) <= keep || s == |gs| - 1
    ensures Kept(gs[j..], keep) == gs[s..]
    decreases s - j
  {
    if j < s {
      assert Total(gs[j..]) > keep && gs[j..][1..] == gs[j + 1..];
      KeptIs(gs, keep, j + 1, s);
    }
  }

  lemma {:induction false} TotalMono(gs: seq<Msgs>, i: nat, j: nat)
    requires i <= j <= |gs|
    ensures Total(gs[j..]) <= Total(gs[i..])
    decreases j - i
  {
    if i < j {
      assert gs[i..][1..] == gs[i + 1..];
      TotalMono(gs, i + 1, j);
    }
  }

  /** Splits the system messages from the rest. */
  method Divide(msgs: Msgs) returns (system: Msgs, rest: Msgs)
    ensures system == System(msgs) && rest == Rest(msgs)
  {
    system, rest := [], [];
    for i := 0 to |msgs|
      invariant system == System(msgs[..i]) && rest == Rest(msgs[..i])
    {
      assert msgs[..i + 1][..i] == msgs[..i];
      if IsSystem(msgs[i]) {
        system := system + [msgs[i]];
      } else {
        rest := rest + [msgs[i]];
      }
    }
    assert msgs[..|msgs|] == msgs;
  }

  /** The first group to keep, looked for from the newest. */
  method KeepFrom(groups: seq<Msgs>, keep: int) returns (start: nat)
    requires keep > 0
    ensures start <= |groups| && Kept(groups, keep) == groups[start..]
  {
    var total := 0;
    start := |groups|;
    var i := |groups| - 1;
    while i >= 0
      invariant -1 <= i < |groups| && start == i + 1
      invariant total == Total(groups[start..]) <= keep
    {
      var n := |groups[i]|;
      assert groups[i..][1..] == groups[i + 1..];
      if total + n > keep {
        KeptFrom(groups, keep, i);
        if start == |groups| {
          start := i;
        }
        return;
      }
      total := total + n;
      start := i;
      i := i - 1;
    }
    assert groups[0..] == groups;
  }

  lemma KeptFrom(gs: seq<Msgs>, keep: int, i: nat)
    requires i < |gs| && Total(gs[i..]) > keep
    requires Total(gs[i + 1..]) <= keep
    ensures Kept(gs, keep) == gs[if i == |gs| - 1 then i else i + 1..]
  {
    forall k | 0 <= k <= i ensures Total(gs[k..]) > keep {
      TotalMono(gs, k, i);
    }
    assert gs[0..] == gs;
    KeptIs(gs, keep, 0, if i == |gs| - 1 then i else i + 1);
  }

  method Concat(groups: seq<Msgs>) returns (kept: Msgs)
    ensures kept == Flatten(groups)
  {
    kept := [];
    assert groups[0..] == groups;
    for g := 0 to |groups|
      invariant kept + Flatten(groups[g..]) == Flatten(groups)
    {
      assert groups[g..][1..] == groups[g + 1..];
      kept := kept + groups[g];
    }
  }

  /** trimHistory. */
  method TrimHistory(msgs: Msgs, max: int) returns (r: Msgs)
    ensures r == Trim(msgs, max)
  {
    if max <= 0 || |msgs| <= max {
      return msgs;
    }
    var system, rest := Divide(msgs);
    var keep := max - |system|;
    if keep <= 0 {
      return system;
    }
    var groups := GroupTurnsLoop(rest);
    var start := KeepFrom(groups, keep);
    var kept := Concat(groups[start..]);
    return system + kept;
  }

  // ------------------------------------------------------------- what trimming keeps

  lemma {:induction false} SplitAppend(a: Msgs, b: Msgs)
    ensures System(a + b) == System(a) + System(b)
    ensures Rest(a + b) == Rest(a) + Rest(b)
  {
    if b == [] {
      assert a + b == a;
    } else {
      var init, last, both := b[..|b| - 1], b[|b| - 1], a + b;
      SplitAppend(a, init);
      assert both[..|both| - 1] == a + init && both[|both| - 1] == last;
    }
  }

  lemma SplitSingle(m: MessageV)
    ensures System([m]) == if IsSystem(m) then [m] else []
    ensures Rest([m]) == if IsSystem(m) then [] else [m]
  {
    assert [m][..0] == [];
  }

  lemma {:induction false} SplitOnce(ms: Msgs)
    ensures System(System(ms)) == System(ms) && Rest(System(ms)) == []
    ensures System(Rest(ms)) == [] && Rest(Rest(ms)) == Rest(ms)
    ensures |System(ms)| + |Rest(ms)| == |ms|
  {
    if ms != [] {
      var n := |ms| - 1;
      SplitOnce(ms[..n]);
      SplitSingle(ms[n]);
      var sys, rest := System(ms[..n]), Rest(ms[..n]);
      if IsSystem(ms[n]) {
        assert System(ms) == sys + [ms[n]] && Rest(ms) == rest;
        SplitAppend(sys, [ms[n]]);
      } else {
        assert System(ms) == sys && Rest(ms) == rest + [ms[n]];
        SplitAppend(rest, [ms[n]]);
      }
    }
  }

  lemma {:induction false} NoSystem(ms: Msgs)
    requires System(ms) == []
    ensures Rest(ms) == ms
  {
    if ms != [] {
      NoSystem(ms[..|ms| - 1]);
    }
  }

  lemma {:induction false} AllRest(ms: Msgs)
    requires forall m | m in ms :: !IsSystem(m)
    ensures System(ms) == [] && Rest(ms) == ms
  {
    if ms != [] {
      var init, last := ms[..|ms| - 1], ms[|ms| - 1];
      assert last in ms;
      AllRest(init);
    }
  }

  lemma {:induction false} FlattenSplit(gs: seq<Msgs>, k: nat)
    requires k <= |gs|
    ensures Flatten(gs) == Flatten(gs[..k]) + Flatten(gs[k..])
  {
    if k == 0 {
      assert gs[0..] == gs;
    } else {
      FlattenSplit(gs[1..], k - 1);
      assert gs[1..][..k - 1] == gs[..k][1..];
      assert gs[1..][k - 1..] == gs[k..];
    }
  }

  /** Groups are dropped one by one, oldest first, and never more than needed. */
  lemma {:induction false} KeptIsLongest(gs: seq<Msgs>, keep: int, k: nat)
    requires keep >= 0 && k == |gs| - |Kept(gs, keep)|
    ensures Kept(gs, keep) == gs[k..]
    ensures forall j | 0 <= j < k :: Total(gs[j..]) > keep
    ensures Total(gs[k..]) <= keep || k == |gs| - 1
  {
    KeptShorter(gs, keep);
    assert gs[0..] == gs;
    if |gs| > 1 && Total(gs) > keep {
      KeptIsLongest(gs[1..], keep, k - 1);
      forall j | 0 < j <= k ensures gs[1..][j - 1..] == gs[j..] {
      }
      forall j | 0 <= j < k ensures Total(gs[j..]) > keep {
        if j > 0 {
          assert Total(gs[1..][j - 1..]) > keep;
        }
      }
    }
  }

  lemma {:induction false} KeptShorter(gs: seq<Msgs>, keep: int)
    ensures |Kept(gs, keep)| <= |gs| && (|gs| > 1 && Total(gs) > keep ==> |Kept(gs, keep)| < |gs|)
  {
    if |gs| > 1 && Total(gs) > keep {
      KeptShorter(gs[1..], keep);
    }
  }

  /** How many of the oldest groups trimming drops. */
  function Dropped(ms: Msgs, max: int): (k: nat)
    ensures k <= |GroupTurns(Rest(ms))|
  {
    DropCount(GroupTurns(Rest(ms)), |ms|, |System(ms)|, max)
  }

  function DropCount(gs: seq<Msgs>, length: nat, system: nat, max: int): (k: nat)
    ensures k <= |gs|
  {
    KeptShorter(gs, max - system);
    if max <= 0 || length <= max then 0
    else if max - system <= 0 then |gs|
    else |gs| - |Kept(gs, max - system)|
  }

  lemma {:induction false} TotalPositive(ms: Msgs, j: nat)
    requires j < |GroupTurns(ms)|
    ensures Total(GroupTurns(ms)[j..]) > 0
    decreases j
  {
    if j > 0 {
      var n := GroupLen(ms);
      TotalPositive(ms[n..], j - 1);
      assert GroupTurns(ms)[j..] == GroupTurns(ms[n..])[j - 1..];
    }
  }

  /** What trimming leaves of the messages that are not of the system. */
  function Newest(ms: Msgs, max: int): Msgs {
    Flatten(GroupTurns(Rest(ms))[Dropped(ms, max)..])
  }

  lemma NewestIsSuffix(ms: Msgs, max: int)
    ensures exists cut | 0 <= cut <= |Rest(ms)| :: Newest(ms, max) == Rest(ms)[cut..]
    ensures System(Newest(ms, max)) == [] && Rest(Newest(ms, max)) == Newest(ms, max)
  {
    var rest, gs, k := Rest(ms), GroupTurns(Rest(ms)), Dropped(ms, max);
    FlattenGroups(rest);
    FlattenSplit(gs, k);
    FlattenedSuffix(rest, Flatten(gs[..k]), Newest(ms, max));
    SplitOnce(ms);
    SplitAppend(Flatten(gs[..k]), Newest(ms, max));
    NoSystem(Newest(ms, max));
  }

  lemma FlattenedSuffix(all: Msgs, a: Msgs, b: Msgs)
    requires all == a + b
    ensures exists cut | 0 <= cut <= |all| :: b == all[cut..]
  {
    assert b == all[|a|..];
  }

  lemma NothingDropped(ms: Msgs, max: int)
    requires max <= 0 || |ms| <= max
    ensures Newest(ms, max) == Rest(ms)
  {
    FlattenGroups(Rest(ms));
    assert GroupTurns(Rest(ms))[0..] == GroupTurns(Rest(ms));
  }

  lemma TrimForm(ms: Msgs, max: int)
    requires max > 0 && |ms| > max
    ensures Trim(ms, max) == System(ms) + Newest(ms, max)
  {
    var gs, keep := GroupTurns(Rest(ms)), max - |System(ms)|;
    if keep > 0 {
      KeptIsLongest(gs, keep, Dropped(ms, max));
    } else {
      Sequences.Unit(System(ms));
    }
  }

  lemma SystemPlus(ms: Msgs, rest: Msgs)
    requires System(rest) == [] && Rest(rest) == rest
    ensures System(System(ms) + rest) == System(ms) && Rest(System(ms) + rest) == rest
  {
    SplitOnce(ms);
    SplitAppend(System(ms), rest);
  }

  /** What a trimmed history is made of: every system message in order, and of the rest
      whole groups at the newest end. */
  lemma TrimKeeps(ms: Msgs, max: int)
    ensures System(Trim(ms, max)) == System(ms) && Rest(Trim(ms, max)) == Newest(ms, max)
    ensures exists cut | 0 <= cut <= |Rest(ms)| :: Newest(ms, max) == Rest(ms)[cut..]
    ensures max > 0 && |ms| > max ==> Trim(ms, max) == System(ms) + Newest(ms, max)
  {
    NewestIsSuffix(ms, max);
    if max > 0 && |ms| > max {
      TrimForm(ms, max);
      SystemPlus(ms, Newest(ms, max));
    } else {
      NothingDropped(ms, max);
    }
  }

  lemma TrimSplits(ms: Msgs, max: int)
    requires 0 < max < |ms|
    ensures Trim(ms, max) == System(ms) + Rest(Trim(ms, max))
  {
    TrimKeeps(ms, max);
  }

  lemma TrimShort(ms: Msgs, max: int)
    requires max <= 0 || |ms| <= max
    ensures Trim(ms, max) == ms
  {
  }

  /** The groups kept are as many of the newest as fit; the newest alone may not fit. */
  lemma TrimIsLongest(ms: Msgs, max: int)
    requires max > 0
    ensures forall j | 0 <= j < Dropped(ms, max) :: |System(ms)| + Total(GroupTurns(Rest(ms))[j..]) > max
    ensures |Trim(ms, max)| > max ==>
      var gs := GroupTurns(Rest(ms));
      Rest(Trim(ms, max)) == [] || (gs != [] && Rest(Trim(ms, max)) == gs[|gs| - 1])
  {
    var gs := GroupTurns(Rest(ms));
    var k := Dropped(ms, max);
    TrimKeeps(ms, max);
    forall j | 0 <= j < |gs| ensures Total(gs[j..]) > 0 {
      TotalPositive(Rest(ms), j);
    }
    DropLongest(gs, |ms|, |System(ms)|, max);
    TotalIsLength(gs[k..]);
    if k == |gs| - 1 {
      LastGroup(gs);
    }
  }

  lemma DropLongest(gs: seq<Msgs>, length: nat, system: nat, max: int)
    requires max > 0 && forall j | 0 <= j < |gs| :: Total(gs[j..]) > 0
    ensures var k := DropCount(gs, length, system, max);
      && (forall j | 0 <= j < k :: system + Total(gs[j..]) > max)
      && (length > max && k < |gs| - 1 ==> system + Total(gs[k..]) <= max)
  {
    var k := DropCount(gs, length, system, max);
    if length > max && max > system {
      KeptIsLongest(gs, max - system, k);
      forall j | 0 <= j < k ensures system + Total(gs[j..]) > max {
        assert Total(gs[j..]) > max - system;
      }
    }
  }

  lemma LastGroup(gs: seq<Msgs>)
    requires gs != []
    ensures Flatten(gs[|gs| - 1..]) == gs[|gs| - 1]
  {
    var g := gs[|gs| - 1..];
    assert g == [gs[|gs| - 1]] && g[1..] == [];
  }

  /** The limit is exceeded exactly when the system messages alone exceed it, or leave
      room but less than the newest group needs. */
  lemma TrimExceedsExactly(ms: Msgs, max: int)
    requires max > 0
    ensures |Trim(ms, max)| > max <==>
      var gs := GroupTurns(Rest(ms));
      |System(ms)| > max || (|System(ms)| < max && gs != [] && |System(ms)| + |gs[|gs| - 1]| > max)
  {
    var gs := GroupTurns(Rest(ms));
    var keep := max - |System(ms)|;
    SplitOnce(ms);
    FlattenGroups(Rest(ms));
    TotalIsLength(gs);
    if keep > 0 {
      TotalIsLength(Kept(gs, keep));
      KeptOverflows(gs, keep);
    }
  }

  lemma {:induction false} KeptOverflows(gs: seq<Msgs>, keep: nat)
    ensures Total(Kept(gs, keep)) > keep <==> gs != [] && |gs[|gs| - 1]| > keep
    ensures gs != [] ==> |gs[|gs| - 1]| <= Total(gs)
  {
    if |gs| > 1 {
      KeptOverflows(gs[1..], keep);
    } else if gs != [] {
      assert gs[1..] == [];
    }
  }

  /** Trimming what is trimmed changes nothing. */
  lemma TrimTwice(ms: Msgs, max: int)
    ensures Trim(Trim(ms, max), max) == Trim(ms, max)
  {
    var t := Trim(ms, max);
    var rest := Rest(ms);
    var gs := GroupTurns(rest);
    if max > 0 && |ms| > max && |t| > max {
      var k := Dropped(ms, max);
      TrimKeeps(ms, max);
      if max - |System(ms)| > 0 {
        KeptIsLongest(gs, max - |System(ms)|, k);
        SuffixGroups(rest, k);
        KeptAgain(gs, max - |System(ms)|);
      }
    }
  }

  /** The newest group survives, whatever its size, exactly when the limit is not used up
      by system messages alone. */
  lemma NewestKeptExactly(ms: Msgs, max: int)
    requires Rest(ms) != []
    ensures !(0 < max <= |System(ms)|) <==>
      var was, gs := GroupTurns(Rest(ms)), GroupTurns(Rest(Trim(ms, max)));
      gs != [] && gs[|gs| - 1] == was[|was| - 1]
  {
    TrimKeeps(ms, max);
    SuffixGroups(Rest(ms), Dropped(ms, max));
    DroppedAll(ms, max);
    LastOfSuffix(GroupTurns(Rest(ms)), Dropped(ms, max));
  }

  lemma LastOfSuffix(gs: seq<Msgs>, k: nat)
    requires gs != [] && k <= |gs|
    ensures k < |gs| <==> gs[k..] != [] && gs[k..][|gs[k..]| - 1] == gs[|gs| - 1]
  {
  }

  lemma SystemAlone(ms: Msgs, max: int)
    requires 0 < max <= |System(ms)| && Rest(ms) != []
    ensures Trim(ms, max) == System(ms)
  {
    SplitOnce(ms);
  }

  lemma DroppedAll(ms: Msgs, max: int)
    requires Rest(ms) != []
    ensures GroupTurns(Rest(ms)) != []
    ensures Dropped(ms, max) == |GroupTurns(Rest(ms))| <==> 0 < max <= |System(ms)|
  {
    SplitOnce(ms);
    DropCountAll(GroupTurns(Rest(ms)), |ms|, |System(ms)|, max);
  }

  lemma DropCountAll(gs: seq<Msgs>, length: nat, system: nat, max: int)
    requires gs != [] && length > system
    ensures DropCount(gs, length, system, max) == |gs| <==> 0 < max <= system
  {
    KeptSome(gs, max - system);
  }

  lemma {:induction false} KeptSome(gs: seq<Msgs>, keep: int)
    requires gs != []
    ensures Kept(gs, keep) != []
  {
    if |gs| > 1 && Total(gs) > keep {
      KeptSome(gs[1..], keep);
    }
  }

  lemma {:induction false} KeptAgain(gs: seq<Msgs>, keep: int)
    ensures Kept(Kept(gs, keep), keep) == Kept(gs, keep)
  {
    if |gs| > 1 && Total(gs) > keep {
      KeptAgain(gs[1..], keep);
    }
  }

  // ---------------------------------------------------------------- by the roles alone

  lemma {:induction false} SplitCounts(ms: Msgs, m: MessageV)
    ensures multiset(ms)[m] == multiset(System(ms))[m] + multiset(Rest(ms))[m]
    ensures if m.role == "system" then multiset(Rest(ms))[m] == 0 else multiset(System(ms))[m] == 0
  {
    if ms != [] {
      var init, last := ms[..|ms| - 1], ms[|ms| - 1];
      SplitCounts(init, m);
      assert ms == init + [last];
    }
  }

  lemma SuffixCounts(ms: Msgs, cut: nat, m: MessageV)
    requires cut <= |ms|
    ensures multiset(ms[cut..])[m] <= multiset(ms)[m]
  {
    assert ms == ms[..cut] + ms[cut..];
  }

  /** Trimming keeps every message of role "system", as often as it occurs, and adds
      nothing. A history within the limit is not trimmed. */
  lemma TrimByRole(ms: Msgs, max: int, m: MessageV)
    ensures m.role == "system" ==> multiset(Trim(ms, max))[m] == multiset(ms)[m]
    ensures multiset(Trim(ms, max))[m] <= multiset(ms)[m]
    ensures max <= 0 || |ms| <= max ==> Trim(ms, max) == ms
  {
    TrimKeeps(ms, max);
    SplitCounts(ms, m);
    SplitCounts(Trim(ms, max), m);
    var cut :| 0 <= cut <= |Rest(ms)| && Newest(ms, max) == Rest(ms)[cut..];
    SuffixCounts(Rest(ms), cut, m);
  }

  /** An assistant message with tool calls makes a group with all messages of role "tool"
      that follow it at once. */
  lemma CallGroup(call: MessageV, results: Msgs, rest: Msgs)
    requires call.role == "assistant" && call.toolCalls != []
    requires (forall i | 0 <= i < |results| :: results[i].role == "tool") && (rest != [] ==> rest[0].role != "tool")
    ensures GroupTurns([call] + results + rest) == [[call] + results] + GroupTurns(rest)
  {
    var ms, n := [call] + results + rest, 1 + |results|;
    assert ms[1..] == results + rest;
    RunLength(ms[1..], |results|);
    assert ms[..n] == [call] + results && ms[n..] == rest;
  }

  /** Any other message makes a group of its own. */
  lemma SingleGroup(m: MessageV, rest: Msgs)
    requires m.role != "assistant" || m.toolCalls == []
    ensures GroupTurns([m] + rest) == [[m]] + GroupTurns(rest)
  {
    assert ([m] + rest)[..1] == [m] && ([m] + rest)[1..] == rest;
  }

  // --------------------------------------------------------------- well-formed turns

  /** rs answers the calls of c one by one, in order. */
  predicate Answers(c: MessageV, rs: Msgs) {
    && |rs| == |c.toolCalls|
    && forall k | 0 <= k < |rs| :: IsTool(rs[k]) && rs[k].toolCallID == c.toolCalls[k].id
  }

  /** The length of a turn that starts with m. */
  function Span(m: MessageV): nat {
    1 + if IsCall(m) then |m.toolCalls| else 0
  }

  /** A call turn with exactly its results, or one other message that is no result. */
  predicate Turn(t: Msgs) {
    |t| > 0 && if IsCall(t[0]) then Answers(t[0], t[1..]) else |t| == 1 && !IsTool(t[0])
  }

  /** Every call turn is followed at once by exactly its results, and no result stands
      anywhere else. */
  predicate WellFormed(ms: Msgs) {
    ms == [] || (Span(ms[0]) <= |ms| && Turn(ms[..Span(ms[0])]) && WellFormed(ms[Span(ms[0])..]))
  }

  lemma {:induction false} WellFormedAppend(a: Msgs, b: Msgs)
    requires WellFormed(a) && WellFormed(b)
    ensures WellFormed(a + b)
  {
    if a == [] {
      assert a + b == b;
    } else {
      var n := Span(a[0]);
      WellFormedAppend(a[n..], b);
      assert (a + b)[n..] == a[n..] + b;
      assert (a + b)[..n] == a[..n];
    }
  }

  lemma TurnWellFormed(t: Msgs)
    requires Turn(t)
    ensures WellFormed(t)
  {
    assert t[..|t|] == t && t[|t|..] == [];
  }

  /** In a well-formed history the first group is the first turn. */
  lemma FirstGroup(ms: Msgs)
    requires ms != [] && WellFormed(ms)
    ensures GroupLen(ms) == Span(ms[0])
  {
    if IsCall(ms[0]) {
      var n := |ms[0].toolCalls|;
      var after := ms[1..];
      assert after[..n] == ms[..n + 1][1..];
      forall k | 0 <= k < n ensures IsTool(after[k]) {
        assert after[k] == after[..n][k];
      }
      if n < |after| {
        NotTool(ms[n + 1..]);
      }
      RunLength(after, n);
    }
  }

  lemma NotTool(ms: Msgs)
    requires ms != [] && WellFormed(ms)
    ensures !IsTool(ms[0])
  {
    assert ms[..Span(ms[0])][0] == ms[0];
  }

  /** A group that follows others stays a group of its own. */
  lemma {:induction false} GroupsAppend(ms: Msgs, t: Msgs)
    requires t != [] && !IsTool(t[0]) && GroupTurns(t) == [t]
    ensures GroupTurns(ms + t) == GroupTurns(ms) + [t]
  {
    if ms == [] {
      assert ms + t == t;
    } else {
      var n := GroupLen(ms);
      var both := ms + t;
      FirstGroupAppend(ms, t);
      assert both[n..] == ms[n..] + t && both[..n] == ms[..n];
      calc {
        GroupTurns(both);
        [ms[..n]] + GroupTurns(ms[n..] + t);
        { GroupsAppend(ms[n..], t); }
        [ms[..n]] + (GroupTurns(ms[n..]) + [t]);
        GroupTurns(ms) + [t];
      }
    }
  }

  lemma FirstGroupAppend(ms: Msgs, t: Msgs)
    requires ms != [] && t != [] && !IsTool(t[0])
    ensures GroupLen(ms + t) == GroupLen(ms)
  {
    var both := ms + t;
    assert both[0] == ms[0] && both[1..] == ms[1..] + t;
    ToolRunAppend(ms[1..], t);
  }

  lemma {:induction false} ToolRunAppend(ms: Msgs, t: Msgs)
    requires t != [] && !IsTool(t[0])
    ensures ToolRun(ms + t) == ToolRun(ms)
  {
    if ms != [] {
      ToolRunAppend(ms[1..], t);
      assert (ms + t)[1..] == ms[1..] + t;
    } else {
      assert ms + t == t;
    }
  }

  lemma {:induction false} SuffixWellFormed(ms: Msgs, k: nat)
    requires WellFormed(ms) && k <= |GroupTurns(ms)|
    ensures WellFormed(Flatten(GroupTurns(ms)[k..]))
    decreases k
  {
    if k == 0 {
      FlattenGroups(ms);
      assert GroupTurns(ms)[0..] == GroupTurns(ms);
    } else {
      var n := GroupLen(ms);
      FirstGroup(ms);
      SuffixWellFormed(ms[n..], k - 1);
      assert GroupTurns(ms)[k..] == GroupTurns(ms[n..])[k - 1..];
    }
  }

  /** Trimming never parts a call turn from its results. */
  lemma TrimWellFormed(ms: Msgs, max: int)
    requires WellFormed(Rest(ms))
    ensures WellFormed(Rest(Trim(ms, max)))
  {
    TrimKeeps(ms, max);
    SuffixWellFormed(Rest(ms), Dropped(ms, max));
  }
}
