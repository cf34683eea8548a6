/** Well-formed tool dialogues, and the recogniser that splits one into exchanges. */
module Transcript {
  import opened Common
  import opened ToolGroups

  datatype Role = User | Assistant

  datatype Block =
    | Text(text: string)
    | UseBlock(use: ToolUse)
    | ResultBlock(useId: string, content: string)

  datatype Content = Plain(text: string) | Blocks(blocks: seq<Block>)

  datatype Message = Message(role: Role, content: Content)

  function BlocksOf(m: Message): seq<Block> { if m.content.Plain? then [] else m.content.blocks }

  /** The tool_use blocks, in order. */
  function Uses(blocks: seq<Block>): seq<ToolUse> {
    if blocks == [] then []
    else (if blocks[0].UseBlock? then [blocks[0].use] else []) + Uses(blocks[1..])
  }

  function Ids(uses: seq<ToolUse>): (ids: set<string>) { set u | u in uses :: u.id }

  function UseIds(m: Message): set<string> { Ids(Uses(BlocksOf(m))) }

  predicate DistinctIds(uses: seq<ToolUse>) {
    forall i, k :: 0 <= i < k < |uses| ==> uses[i].id != uses[k].id
  }

  predicate NoResults(blocks: seq<Block>) { forall b :: b in blocks ==> !b.ResultBlock? }

  // ---------------------------------------------------------------- the grammar

  /** A message that neither calls a tool nor answers a call. */
  predicate Single(m: Message) { Uses(BlocksOf(m)) == [] && NoResults(BlocksOf(m)) }

  /** An assistant message that calls tools under distinct ids. */
  predicate Opens(m: Message) {
    m.role.Assistant? && Uses(BlocksOf(m)) != [] && DistinctIds(Uses(BlocksOf(m))) && NoResults(BlocksOf(m))
  }

  /** Results for exactly the given ids, one each and in any order, followed only by text. */
  predicate Answering(blocks: seq<Block>, ids: set<string>) {
    && |ids| <= |blocks|
    && (forall i :: 0 <= i < |ids| ==> blocks[i].ResultBlock? && blocks[i].useId in ids)
    && (forall i, k :: 0 <= i < k < |ids| ==> blocks[i].useId != blocks[k].useId)
    && (forall i :: |ids| <= i < |blocks| ==> blocks[i].Text?)
  }

  predicate Answers(m: Message, ids: set<string>) { m.role.User? && Answering(BlocksOf(m), ids) }

  predicate IsGroup(g: seq<Message>) {
    || (|g| == 1 && Single(g[0]))
    || (|g| == 2 && Opens(g[0]) && Answers(g[1], UseIds(g[0])))
  }

  function AllIds(ms: seq<Message>): set<string> {
    if ms == [] then {} else UseIds(ms[0]) + AllIds(ms[1..])
  }

  /** No tool-use id occurs in two different messages. */
  predicate FreshIds(ms: seq<Message>) {
    forall i, k :: 0 <= i < k < |ms| ==> UseIds(ms[i]) !! UseIds(ms[k])
  }

  /** The meaning of a partition, without any order of scanning. */
  ghost predicate IsPartition(groups: seq<seq<Message>>, ms: seq<Message>) {
    Flatten(groups) == ms && (forall g :: g in groups ==> IsGroup(g)) && FreshIds(ms)
  }

  ghost predicate Accepted(ms: seq<Message>) { exists groups :: IsPartition(groups, ms) }

  function GroupLength(m: Message): nat { if Single(m) then 1 else 2 }

  /** Scanning from the left, with the ids already used. */
  function Parse(ms: seq<Message>, seen: set<string>): Option<seq<seq<Message>>>
    decreases |ms|
  {
    if ms == [] then Some([])
    else
      var n := GroupLength(ms[0]);
      if n <= |ms| && IsGroup(ms[..n]) && UseIds(ms[0]) !! seen then
        Prefixed([ms[..n]], Parse(ms[n..], seen + UseIds(ms[0])))
      else None
  }

  function Prefixed(groups: seq<seq<Message>>, rest: Option<seq<seq<Message>>>): Option<seq<seq<Message>>> {
    if rest.Some? then Some(groups + rest.value) else None
  }

  // ---------------------------------------------------------------- scanning decides the grammar

  lemma {:induction false} UsesFound(blocks: seq<Block>, b: Block)
    requires b in blocks && b.UseBlock?
    ensures b.use in Uses(blocks)
  {
    if blocks[0] != b { UsesFound(blocks[1..], b); }
  }

  lemma {:induction false} NoUses(blocks: seq<Block>)
    ensures Uses(blocks) == [] <==> forall b :: b in blocks ==> !b.UseBlock?
  {
    if blocks != [] { NoUses(blocks[1..]); }
    if b :| b in blocks && b.UseBlock? { UsesFound(blocks, b); }
  }

  lemma AnswerHasNoUses(m: Message, ids: set<string>)
    requires Answers(m, ids)
    ensures Uses(BlocksOf(m)) == []
  {
    NoUses(BlocksOf(m));
  }

  lemma {:induction false} AllIdsAt(ms: seq<Message>, x: string)
    ensures x in AllIds(ms) <==> exists i :: 0 <= i < |ms| && x in UseIds(ms[i])
  {
    if ms != [] {
      AllIdsAt(ms[1..], x);
      assert x in UseIds(ms[0]) || x in AllIds(ms[1..]) <==> x in AllIds(ms);
      if i :| 0 <= i < |ms[1..]| && x in UseIds(ms[1..][i]) { assert x in UseIds(ms[i + 1]); }
      if i :| 0 <= i < |ms| && x in UseIds(ms[i]) { assert i > 0 ==> ms[1..][i - 1] == ms[i]; }
    }
  }

  lemma {:induction false} AllIdsAppend(ms: seq<Message>, ns: seq<Message>)
    ensures AllIds(ms + ns) == AllIds(ms) + AllIds(ns)
  {
    if ms == [] {
      assert ms + ns == ns;
    } else {
      assert (ms + ns)[1..] == ms[1..] + ns;
      AllIdsAppend(ms[1..], ns);
    }
  }

  lemma FreshAcross(ms: seq<Message>, ns: seq<Message>)
    requires forall i, k :: 0 <= i < |ms| && 0 <= k < |ns| ==> UseIds(ms[i]) !! UseIds(ns[k])
    ensures AllIds(ms) !! AllIds(ns)
  {
    forall x | x in AllIds(ms)
      ensures x !in AllIds(ns)
    {
      AllIdsAt(ms, x);
      AllIdsAt(ns, x);
    }
  }

  lemma IdsWithin(ms: seq<Message>, i: nat)
    requires i < |ms|
    ensures UseIds(ms[i]) <= AllIds(ms)
  {
    forall x | x in UseIds(ms[i])
      ensures x in AllIds(ms)
    {
      AllIdsAt(ms, x);
    }
  }

  lemma FreshParts(ms: seq<Message>, ns: seq<Message>)
    requires FreshIds(ms + ns)
    ensures FreshIds(ms) && FreshIds(ns) && AllIds(ms) !! AllIds(ns)
  {
    var all := ms + ns;
    assert forall i :: 0 <= i < |ms| ==> all[i] == ms[i];
    assert forall i :: 0 <= i < |ns| ==> all[|ms| + i] == ns[i];
    FreshAcross(ms, ns);
  }

  lemma FreshWhole(ms: seq<Message>, ns: seq<Message>)
    requires FreshIds(ms) && FreshIds(ns) && AllIds(ms) !! AllIds(ns)
    ensures FreshIds(ms + ns)
  {
    var all, n := ms + ns, |ms|;
    forall i, k | 0 <= i < k < |all|
      ensures UseIds(all[i]) !! UseIds(all[k])
    {
      if i < n <= k {
        assert all[i] == ms[i] && all[k] == ns[k - n];
        IdsWithin(ms, i);
        IdsWithin(ns, k - n);
      } else if k < n {
        assert all[i] == ms[i] && all[k] == ms[k];
      } else {
        assert all[i] == ns[i - n] && all[k] == ns[k - n];
      }
    }
  }

  lemma FreshIdsSplit(ms: seq<Message>, ns: seq<Message>)
    ensures FreshIds(ms + ns) <==> FreshIds(ms) && FreshIds(ns) && AllIds(ms) !! AllIds(ns)
  {
    if FreshIds(ms + ns) { FreshParts(ms, ns); }
    if FreshIds(ms) && FreshIds(ns) && AllIds(ms) !! AllIds(ns) { FreshWhole(ms, ns); }
  }

  lemma PairIds(a: Message, u: Message)
    requires Uses(BlocksOf(u)) == []
    ensures AllIds([a, u]) == UseIds(a)
  {
    assert [a, u][1..] == [u] && [u][1..] == [];
    assert UseIds(u) == {} && AllIds([u]) == {};
  }

  lemma GroupIds(g: seq<Message>)
    requires IsGroup(g)
    ensures AllIds(g) == UseIds(g[0]) && FreshIds(g) && |g| == GroupLength(g[0])
  {
    if |g| == 2 {
      AnswerHasNoUses(g[1], UseIds(g[0]));
      assert g == [g[0], g[1]];
      PairIds(g[0], g[1]);
    } else {
      assert g[1..] == [];
    }
  }

  /** Scanning past one group. */
  lemma ParseStep(g: seq<Message>, rest: seq<Message>, seen: set<string>)
    requires IsGroup(g)
    ensures Parse(g + rest, seen)
            == if UseIds(g[0]) !! seen then Prefixed([g], Parse(rest, seen + UseIds(g[0]))) else None
  {
    GroupIds(g);
    assert (g + rest)[..|g|] == g && (g + rest)[|g|..] == rest;
  }

  /** A scan that succeeds starts with a group. */
  lemma ParseHead(ms: seq<Message>, seen: set<string>) returns (g: seq<Message>, rest: seq<Message>)
    requires Parse(ms, seen).Some? && ms != []
    ensures ms == g + rest && IsGroup(g) && UseIds(g[0]) !! seen && Parse(rest, seen + UseIds(g[0])).Some?
    ensures Parse(ms, seen).value == [g] + Parse(rest, seen + UseIds(g[0])).value
  {
    var n := GroupLength(ms[0]);
    g, rest := ms[..n], ms[n..];
    SplitAt(ms, n);
    assert g[0] == ms[0];
  }

  lemma SplitAt(ms: seq<Message>, n: nat)
    requires n <= |ms|
    ensures ms == ms[..n] + ms[n..]
  {
  }

  lemma PartitionStep(g: seq<Message>, groups: seq<seq<Message>>, rest: seq<Message>)
    requires IsGroup(g)
    ensures IsPartition([g] + groups, g + rest) <==> IsPartition(groups, rest) && UseIds(g[0]) !! AllIds(rest)
  {
    GroupIds(g);
    FreshIdsSplit(g, rest);
    assert ([g] + groups)[1..] == groups;
    assert Flatten([g] + groups) == g + Flatten(groups);
    if g + Flatten(groups) == g + rest {
      assert (g + rest)[|g|..] == rest && (g + Flatten(groups))[|g|..] == Flatten(groups);
    }
    assert forall x :: x in groups ==> x in [g] + groups;
  }

  lemma {:induction false} ParseIsPartition(ms: seq<Message>, seen: set<string>)
    requires Parse(ms, seen).Some?
    ensures IsPartition(Parse(ms, seen).value, ms) && AllIds(ms) !! seen
    decreases |ms|
  {
    if ms != [] {
      var g, rest := ParseHead(ms, seen);
      ParseIsPartition(rest, seen + UseIds(g[0]));
      GroupIds(g);
      AllIdsAppend(g, rest);
      PartitionStep(g, Parse(rest, seen + UseIds(g[0])).value, rest);
    }
  }

  lemma {:induction false} PartitionIsParsed(groups: seq<seq<Message>>, ms: seq<Message>, seen: set<string>)
    requires IsPartition(groups, ms) && AllIds(ms) !! seen
    ensures Parse(ms, seen) == Some(groups)
    decreases |groups|
  {
    if groups != [] {
      var g, rest := groups[0], Flatten(groups[1..]);
      assert g in groups && IsGroup(g) && ms == g + rest && groups == [g] + groups[1..];
      PartitionStep(g, groups[1..], rest);
      GroupIds(g);
      AllIdsAppend(g, rest);
      PartitionIsParsed(groups[1..], rest, seen + UseIds(g[0]));
      ParseStep(g, rest, seen);
    }
  }

  /** The scan succeeds exactly on the well-formed dialogues, and a dialogue has one partition. */
  lemma ParseDecides(ms: seq<Message>)
    ensures Parse(ms, {}).Some? <==> Accepted(ms)
    ensures forall groups :: IsPartition(groups, ms) <==> Parse(ms, {}) == Some(groups)
  {
    if Parse(ms, {}).Some? { ParseIsPartition(ms, {}); }
    forall groups | IsPartition(groups, ms)
      ensures Parse(ms, {}) == Some(groups)
    {
      PartitionIsParsed(groups, ms, {});
    }
  }

  // ---------------------------------------------------------------- the recogniser

  lemma {:induction false} PrefixIds(blocks: seq<Block>, n: nat)
    requires n < |blocks|
    ensures Uses(blocks[..n + 1]) == Uses(blocks[..n]) + if blocks[n].UseBlock? then [blocks[n].use] else []
  {
    if n == 0 {
      assert blocks[..1][1..] == [] && blocks[..0] == [];
    } else {
      assert blocks[..n + 1][1..] == blocks[1..][..n] && blocks[..n][1..] == blocks[1..][..n - 1];
      PrefixIds(blocks[1..], n - 1);
    }
  }

  /** The tool_use blocks of a message: the filter at the top of the loop. */
  method ToolUses(blocks: seq<Block>) returns (uses: seq<ToolUse>)
    ensures uses == Uses(blocks)
  {
    uses := [];
    for n := 0 to |blocks|
      invariant uses == Uses(blocks[..n])
    {
      PrefixIds(blocks, n);
      if blocks[n].UseBlock? { uses := uses + [blocks[n].use]; }
    }
    assert blocks[..|blocks|] == blocks;
  }

  /** Answering a turn, block by block: the results still due, and whether text has begun. */
  predicate Consumes(blocks: seq<Block>, pending: set<string>, textSeen: bool) {
    if blocks == [] then pending == {}
    else if blocks[0].ResultBlock? then
      !textSeen && blocks[0].useId in pending && Consumes(blocks[1..], pending - {blocks[0].useId}, false)
    else pending == {} && Consumes(blocks[1..], pending, true)
  }

  lemma {:induction false} OnlyTextLeft(blocks: seq<Block>, textSeen: bool)
    requires forall b :: b in blocks ==> !b.UseBlock?
    ensures Consumes(blocks, {}, textSeen) <==> forall i :: 0 <= i < |blocks| ==> blocks[i].Text?
  {
    if blocks != [] {
      assert blocks[0] in blocks;
      OnlyTextLeft(blocks[1..], true);
      assert forall i :: 0 < i < |blocks| ==> blocks[i] == blocks[1..][i - 1];
      assert forall i :: 0 <= i < |blocks[1..]| ==> blocks[1..][i] == blocks[i + 1];
    }
  }

  lemma FirstResult(blocks: seq<Block>, ids: set<string>)
    requires blocks != [] && blocks[0].ResultBlock? && Answering(blocks, ids)
    ensures blocks[0].useId in ids && Answering(blocks[1..], ids - {blocks[0].useId})
  {
    assert |ids| > 0;
    var rest, less := blocks[1..], ids - {blocks[0].useId};
    assert |less| == |ids| - 1;
    forall i | 0 <= i < |less|
      ensures rest[i].ResultBlock? && rest[i].useId in less
    {
      assert rest[i] == blocks[i + 1];
    }
    forall i, k | 0 <= i < k < |less|
      ensures rest[i].useId != rest[k].useId
    {
      assert rest[i] == blocks[i + 1] && rest[k] == blocks[k + 1];
    }
  }

  lemma MoreResults(blocks: seq<Block>, ids: set<string>)
    requires blocks != [] && blocks[0].ResultBlock? && blocks[0].useId in ids
    requires Answering(blocks[1..], ids - {blocks[0].useId})
    ensures Answering(blocks, ids)
  {
    var rest, less := blocks[1..], ids - {blocks[0].useId};
    assert |less| == |ids| - 1;
    forall i | 0 < i < |blocks|
      ensures blocks[i] == rest[i - 1]
    {
    }
    forall i, k | 0 <= i < k < |ids|
      ensures blocks[i].useId != blocks[k].useId
    {
      assert blocks[k] == rest[k - 1];
      if i > 0 { assert blocks[i] == rest[i - 1]; }
    }
  }

  lemma {:induction false} ConsumesDecides(blocks: seq<Block>, ids: set<string>)
    requires forall b :: b in blocks ==> !b.UseBlock?
    ensures Consumes(blocks, ids, false) <==> Answering(blocks, ids)
  {
    if blocks != [] {
      assert blocks[0] in blocks;
      if blocks[0].ResultBlock? {
        ConsumesDecides(blocks[1..], ids - {blocks[0].useId});
        if Answering(blocks, ids) { FirstResult(blocks, ids); }
        if Consumes(blocks, ids, false) { MoreResults(blocks, ids); }
      } else if ids == {} {
        OnlyTextLeft(blocks, false);
      }
    }
  }

  /** Consume the blocks that answer a pending turn. */
  method TakeResults(blocks: seq<Block>, ids: set<string>) returns (ok: bool)
    requires Uses(blocks) == []
    ensures ok <==> Answering(blocks, ids)
  {
    NoUses(blocks);
    ConsumesDecides(blocks, ids);
    var pending, textSeen := ids, false;
    assert blocks[0..] == blocks;
    for k := 0 to |blocks|
      invariant Consumes(blocks, ids, false) == Consumes(blocks[k..], pending, textSeen)
    {
      assert blocks[k..][0] == blocks[k] && blocks[k..][1..] == blocks[k + 1..];
      if blocks[k].ResultBlock? {
        if textSeen || blocks[k].useId !in pending { return false; }
        pending := pending - {blocks[k].useId};
      } else {
        if pending != {} { return false; }
        textSeen := true;
      }
    }
    return pending == {};
  }

  /** Record the ids of a calling turn; refuse one that is already taken. */
  method TakeIds(uses: seq<ToolUse>, before: set<string>) returns (ok: bool, seen: set<string>)
    ensures ok <==> DistinctIds(uses) && Ids(uses) !! before
    ensures ok ==> seen == before + Ids(uses)
  {
    seen := before;
    for k := 0 to |uses|
      invariant seen == before + set i | 0 <= i < k :: uses[i].id
      invariant forall i, j :: 0 <= i < j < k ==> uses[i].id != uses[j].id
      invariant forall i :: 0 <= i < k ==> uses[i].id !in before
    {
      if uses[k].id in seen {
        assert uses[k].id in Ids(uses);
        return false, seen;
      }
      seen := seen + {uses[k].id};
    }
    ok := true;
  }

  /** The scan once `groups` are closed and `rest` is still to come. */
  ghost predicate Scanning(ms: seq<Message>, groups: seq<seq<Message>>, rest: seq<Message>, seen: set<string>) {
    Parse(ms, {}) == Prefixed(groups, Parse(rest, seen))
  }

  /** The loop's state before message n: between two groups, or after a turn that awaits answers. */
  ghost predicate Reading(ms: seq<Message>, n: nat, groups: seq<seq<Message>>, group: seq<Message>,
                          before: set<string>, seen: set<string>, pending: set<string>) {
    && n <= |ms|
    && if pending == {} then group == [] && Scanning(ms, groups, ms[n..], seen)
       else && n > 0 && group == [ms[n - 1]] && Opens(ms[n - 1]) && pending == UseIds(ms[n - 1])
            && pending !! before && seen == before + pending && Scanning(ms, groups, ms[n - 1..], before)
  }

  lemma PrefixedNothing(rest: Option<seq<seq<Message>>>)
    ensures Prefixed([], rest) == rest
  {
    if rest.Some? { assert [] + rest.value == rest.value; }
  }

  lemma PrefixedTwice(a: seq<seq<Message>>, b: seq<seq<Message>>, rest: Option<seq<seq<Message>>>)
    ensures Prefixed(a, Prefixed(b, rest)) == Prefixed(a + b, rest)
  {
    if rest.Some? { assert a + (b + rest.value) == a + b + rest.value; }
  }

  lemma CloseGroup(ms: seq<Message>, groups: seq<seq<Message>>, g: seq<Message>, rest: seq<Message>, seen: set<string>)
    requires IsGroup(g) && Scanning(ms, groups, g + rest, seen) && UseIds(g[0]) !! seen
    ensures Scanning(ms, groups + [g], rest, seen + UseIds(g[0]))
  {
    ParseStep(g, rest, seen);
    PrefixedTwice(groups, [g], Parse(rest, seen + UseIds(g[0])));
  }

  lemma ReadAnswer(ms: seq<Message>, n: nat, groups: seq<seq<Message>>, group: seq<Message>,
                   before: set<string>, seen: set<string>, pending: set<string>)
    requires Reading(ms, n, groups, group, before, seen, pending) && n < |ms| && pending != {}
    ensures if Answers(ms[n], pending) then Reading(ms, n + 1, groups + [group + [ms[n]]], [], before, seen, {})
            else Parse(ms, {}).None?
  {
    var g := group + [ms[n]];
    assert ms[n - 1..] == g + ms[n + 1..];
    if Answers(ms[n], pending) { CloseGroup(ms, groups, g, ms[n + 1..], before); }
  }

  lemma ReadSingle(ms: seq<Message>, n: nat, groups: seq<seq<Message>>, seen: set<string>)
    requires n < |ms| && Scanning(ms, groups, ms[n..], seen) && Single(ms[n])
    ensures Scanning(ms, groups + [[ms[n]]], ms[n + 1..], seen)
  {
    var m := ms[n];
    assert ms[n..] == [m] + ms[n + 1..];
    assert UseIds(m) == {} && seen + {} == seen;
    CloseGroup(ms, groups, [m], ms[n + 1..], seen);
  }

  lemma ReadNext(ms: seq<Message>, n: nat, groups: seq<seq<Message>>, before: set<string>, seen: set<string>)
    requires Reading(ms, n, groups, [], before, seen, {}) && n < |ms|
    ensures var m, ids := ms[n], UseIds(ms[n]);
            if Single(m) then Reading(ms, n + 1, groups + [[m]], [], seen, seen, {})
            else if Opens(m) && ids !! seen then Reading(ms, n + 1, groups, [m], seen, seen + ids, ids)
            else Parse(ms, {}).None?
  {
    var m := ms[n];
    assert ms[n..][0] == m;
    if Single(m) {
      ReadSingle(ms, n, groups, seen);
    } else if Opens(m) {
      assert Uses(BlocksOf(m))[0].id in UseIds(m);
    }
  }

  lemma ReadAll(ms: seq<Message>, groups: seq<seq<Message>>, group: seq<Message>,
                before: set<string>, seen: set<string>, pending: set<string>)
    requires Reading(ms, |ms|, groups, group, before, seen, pending)
    ensures Parse(ms, {}) == if pending == {} then Some(groups) else None
  {
    assert ms[|ms|..] == [];
    assert groups + [] == groups;
  }

  /** The branch for a message that must answer the turn before it. */
  method CloseTurn(m: Message, pending: set<string>) returns (ok: bool)
    ensures ok <==> Answers(m, pending)
  {
    var uses := ToolUses(BlocksOf(m));
    if !m.role.User? || uses != [] {
      if Answers(m, pending) { AnswerHasNoUses(m, pending); }
      return false;
    }
    ok := TakeResults(BlocksOf(m), pending);
  }

  /** The branch for any other message. */
  method OpenTurn(m: Message, seen: set<string>) returns (ok: bool, more: set<string>, pending: set<string>)
    ensures ok <==> Single(m) || (Opens(m) && UseIds(m) !! seen)
    ensures ok ==> pending == UseIds(m) && (pending == {} <==> Single(m))
                   && more == if Single(m) then seen else seen + pending
  {
    var blocks := BlocksOf(m);
    var uses := ToolUses(blocks);
    pending := Ids(uses);
    if uses != [] {
      assert uses[0].id in pending;
      if !m.role.Assistant? { return false, seen, pending; }
    }
    ok, more := TakeIds(uses, seen);
    if exists b :: b in blocks && b.ResultBlock? { ok := false; }
  }

  /** partitionToolExchanges. */
  method PartitionToolExchanges(ms: seq<Message>) returns (r: Option<seq<seq<Message>>>)
    ensures r == Parse(ms, {})
    ensures r.Some? <==> Accepted(ms)
    ensures r.Some? ==> IsPartition(r.value, ms)
  {
    ParseDecides(ms);
    var groups, seen, pending: set<string> := [], {}, {};
    var group: seq<Message> := [];
    ghost var before: set<string> := {};
    assert ms[0..] == ms;
    PrefixedNothing(Parse(ms, {}));
    for n := 0 to |ms|
      invariant Reading(ms, n, groups, group, before, seen, pending)
    {
      if pending != {} {
        ReadAnswer(ms, n, groups, group, before, seen, pending);
        var answered := CloseTurn(ms[n], pending);
        if !answered { return None; }
        groups, group, pending := groups + [group + [ms[n]]], [], {};
      } else {
        ReadNext(ms, n, groups, before, seen);
        var ok, more, ids := OpenTurn(ms[n], seen);
        if !ok { return None; }
        before, seen, pending := seen, more, ids;
        if ids == {} {
          groups := groups + [[ms[n]]];
        } else {
          group := [ms[n]];
        }
      }
    }
    ReadAll(ms, groups, group, before, seen, pending);
    return if pending == {} then Some(groups) else None;
  }

  // ---------------------------------------------------------------- extending a dialogue

  lemma IdsSoFar(g: seq<Message>, rest: seq<Message>, seen: set<string>)
    requires IsGroup(g)
    ensures seen + UseIds(g[0]) + AllIds(rest) == seen + AllIds(g + rest)
  {
    GroupIds(g);
    AllIdsAppend(g, rest);
  }

  lemma PrependGroup(g: seq<Message>, tail: seq<Message>, seen: set<string>,
                     groups: seq<seq<Message>>, rest: Option<seq<seq<Message>>>)
    requires IsGroup(g) && UseIds(g[0]) !! seen && Parse(tail, seen + UseIds(g[0])) == Prefixed(groups, rest)
    ensures Parse(g + tail, seen) == Prefixed([g] + groups, rest)
  {
    ParseStep(g, tail, seen);
    PrefixedTwice([g], groups, rest);
  }

  /** A dialogue goes on as if its ids had been seen from the start. */
  lemma {:induction false} ParseAppend(ms: seq<Message>, ns: seq<Message>, seen: set<string>)
    requires Parse(ms, seen).Some?
    ensures Parse(ms + ns, seen) == Prefixed(Parse(ms, seen).value, Parse(ns, seen + AllIds(ms)))
    decreases |ms|
  {
    if ms == [] {
      assert ms + ns == ns && seen + AllIds(ms) == seen;
      PrefixedNothing(Parse(ns, seen));
    } else {
      var g, rest := ParseHead(ms, seen);
      assert |rest| < |ms|;
      var more := seen + UseIds(g[0]);
      ParseAppend(rest, ns, more);
      IdsSoFar(g, rest, seen);
      ConcatAssoc(g, rest, ns);
      PrependGroup(g, rest + ns, seen, Parse(rest, more).value, Parse(ns, more + AllIds(rest)));
    }
  }

  lemma ParseFresh(ms: seq<Message>, seen: set<string>)
    ensures Parse(ms, seen).Some? <==> Accepted(ms) && AllIds(ms) !! seen
  {
    if Parse(ms, seen).Some? { ParseIsPartition(ms, seen); }
    if Accepted(ms) && AllIds(ms) !! seen {
      var groups :| IsPartition(groups, ms);
      PartitionIsParsed(groups, ms, seen);
    }
  }

  /** A well-formed dialogue goes on exactly with a well-formed dialogue that reuses no id. */
  lemma AcceptedAppend(ms: seq<Message>, ns: seq<Message>)
    requires Accepted(ms)
    ensures Accepted(ms + ns) <==> Accepted(ns) && AllIds(ns) !! AllIds(ms)
  {
    ParseDecides(ms);
    ParseDecides(ms + ns);
    ParseAppend(ms, ns, {});
    ParseFresh(ns, AllIds(ms));
    assert {} + AllIds(ms) == AllIds(ms);
  }

  lemma AcceptedSingle(m: Message)
    ensures Uses(BlocksOf(m)) == [] ==> (Accepted([m]) <==> NoResults(BlocksOf(m)))
    ensures Single(m) ==> Accepted([m]) && AllIds([m]) == {}
  {
    ParseDecides([m]);
    if Single(m) {
      GroupIds([m]);
      assert [m] == [m] + [];
      ParseStep([m], [], {});
    }
  }

  /** A calling turn with its answers is one well-formed exchange exactly when it opens properly. */
  lemma AcceptedExchange(a: Message, u: Message)
    requires Uses(BlocksOf(a)) != []
    requires Opens(a) ==> Answers(u, UseIds(a))
    ensures Accepted([a, u]) <==> Opens(a)
    ensures Opens(a) ==> AllIds([a, u]) == UseIds(a)
  {
    ParseDecides([a, u]);
    if Opens(a) {
      GroupIds([a, u]);
      assert [a, u] + [] == [a, u];
      ParseStep([a, u], [], {});
    }
  }

  /** Whole groups at the end of a well-formed dialogue are one themselves. */
  lemma SuffixAccepted(groups: seq<seq<Message>>, ms: seq<Message>, k: nat)
    requires IsPartition(groups, ms) && k <= |groups|
    ensures IsPartition(groups[k..], Flatten(groups[k..]))
    ensures ms == Flatten(groups[..k]) + Flatten(groups[k..])
  {
    assert groups == groups[..k] + groups[k..];
    FlattenAppend(groups[..k], groups[k..]);
    FreshIdsSplit(Flatten(groups[..k]), Flatten(groups[k..]));
  }
}
