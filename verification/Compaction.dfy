/** Recovering from a context overflow: which messages survive, and in which form. */
module Compaction {
  import opened Common
  import opened ToolGroups
  import opened Transcript
  import opened Excerpts

  const MAX_RECENT_MESSAGES: nat := 4
  const MAX_REMOVED_MESSAGE_PREVIEW: nat := 3

  // ---------------------------------------------------------------- user instructions

  function Texts(blocks: seq<Block>): seq<string> {
    if blocks == [] then []
    else (if blocks[0].Text? then [blocks[0].text] else []) + Texts(blocks[1..])
  }

  function CapturedFrom(m: Message): seq<string> {
    if !m.role.User? then [] else if m.content.Plain? then [m.content.text] else Texts(m.content.blocks)
  }

  /** captureUserInstructions. */
  function Captured(ms: seq<Message>): seq<string> {
    if ms == [] then [] else CapturedFrom(ms[0]) + Captured(ms[1..])
  }

  lemma {:induction false} CapturedAppend(ms: seq<Message>, ns: seq<Message>)
    ensures Captured(ms + ns) == Captured(ms) + Captured(ns)
  {
    if ms == [] {
      assert ms + ns == ns;
    } else {
      assert (ms + ns)[1..] == ms[1..] + ns;
      CapturedAppend(ms[1..], ns);
    }
  }

  // ---------------------------------------------------------------- the two rewrites

  function DropTexts(blocks: seq<Block>, instructions: seq<string>): seq<Block> {
    if blocks == [] then []
    else
      (if blocks[0].Text? && blocks[0].text in instructions then [] else [blocks[0]])
      + DropTexts(blocks[1..], instructions)
  }

  /** A user message without the texts that repeat an instruction; nothing if that leaves it empty. */
  function Filtered(m: Message, instructions: seq<string>): seq<Message> {
    if !m.role.User? then [m]
    else if m.content.Plain? then if m.content.text in instructions then [] else [m]
    else
      var kept := DropTexts(m.content.blocks, instructions);
      if kept == [] then [] else [Message(User, Blocks(kept))]
  }

  function Dialogue(ms: seq<Message>, instructions: seq<string>): seq<Message> {
    if ms == [] then [] else Filtered(ms[0], instructions) + Dialogue(ms[1..], instructions)
  }

  function RoleName(r: Role): string { if r.User? then "user" else "assistant" }

  function CompactBlock(b: Block, role: Role): Block {
    if b.Text? && !role.User? then Text(CompactText(b.text, RoleName(role) + " text block", MAX_INLINE_CHARS))
    else if b.ResultBlock? then
      ResultBlock(b.useId, CompactText(b.content, "tool_result " + b.useId, MAX_TOOL_RESULT_CHARS))
    else b
  }

  /** compactMessage. */
  function CompactMessage(m: Message): Message {
    if m.content.Plain? then
      if m.role.User? then m
      else m.(content := Plain(CompactText(m.content.text, "assistant message", MAX_INLINE_CHARS)))
    else
      var blocks := m.content.blocks;
      m.(content := Blocks(seq(|blocks|, i requires 0 <= i < |blocks| => CompactBlock(blocks[i], m.role))))
  }

  function CompactAll(ms: seq<Message>): seq<Message> {
    seq(|ms|, i requires 0 <= i < |ms| => CompactMessage(ms[i]))
  }

  /** Both rewrites. */
  function Rewritten(ms: seq<Message>, instructions: seq<string>): seq<Message> {
    CompactAll(Dialogue(ms, instructions))
  }

  // ---------------------------------------------------------------- the rewrites keep the grammar

  /** Same role and the same blocks up to the text they carry. */
  predicate SameSkeleton(a: Message, b: Message) {
    && a.role == b.role && |BlocksOf(a)| == |BlocksOf(b)|
    && forall i :: 0 <= i < |BlocksOf(a)| ==>
         match BlocksOf(a)[i]
         case Text(_) => BlocksOf(b)[i].Text?
         case UseBlock(_) => BlocksOf(b)[i] == BlocksOf(a)[i]
         case ResultBlock(id, _) => BlocksOf(b)[i].ResultBlock? && BlocksOf(b)[i].useId == id
  }

  lemma {:induction false} SameUses(a: seq<Block>, b: seq<Block>)
    requires |a| == |b|
    requires forall i :: 0 <= i < |a| ==> (a[i].UseBlock? || b[i].UseBlock? ==> a[i] == b[i])
    ensures Uses(a) == Uses(b)
  {
    if a != [] {
      assert forall i :: 0 <= i < |a| - 1 ==> a[1..][i] == a[i + 1] && b[1..][i] == b[i + 1];
      SameUses(a[1..], b[1..]);
    }
  }

  lemma SkeletonDecides(a: Message, b: Message)
    requires SameSkeleton(a, b)
    ensures Uses(BlocksOf(a)) == Uses(BlocksOf(b))
    ensures Single(a) <==> Single(b)
    ensures Opens(a) <==> Opens(b)
    ensures forall ids :: Answers(a, ids) <==> Answers(b, ids)
  {
    SameUses(BlocksOf(a), BlocksOf(b));
    assert NoResults(BlocksOf(a)) <==> forall i :: 0 <= i < |BlocksOf(a)| ==> !BlocksOf(a)[i].ResultBlock?;
    assert NoResults(BlocksOf(b)) <==> forall i :: 0 <= i < |BlocksOf(b)| ==> !BlocksOf(b)[i].ResultBlock?;
  }

  lemma CompactSkeleton(m: Message)
    ensures SameSkeleton(m, CompactMessage(m))
  {
  }

  /** Dropping texts that repeat an instruction. */
  lemma {:induction false} DropTextsKeeps(blocks: seq<Block>, instructions: seq<string>)
    ensures Uses(DropTexts(blocks, instructions)) == Uses(blocks)
    ensures NoResults(DropTexts(blocks, instructions)) <==> NoResults(blocks)
  {
    if blocks != [] {
      DropTextsKeeps(blocks[1..], instructions);
      assert blocks == [blocks[0]] + blocks[1..];
      var rest := DropTexts(blocks[1..], instructions);
      if DropTexts(blocks, instructions) != rest {
        assert DropTexts(blocks, instructions)[1..] == rest;
      }
    }
  }

  /** Leading results stay where they are. */
  lemma {:induction false} DropTextsAfterResults(blocks: seq<Block>, n: nat, instructions: seq<string>)
    requires n <= |blocks|
    requires forall i :: 0 <= i < n ==> blocks[i].ResultBlock?
    requires forall i :: n <= i < |blocks| ==> blocks[i].Text?
    ensures var kept := DropTexts(blocks, instructions);
      n <= |kept| && kept[..n] == blocks[..n] && forall i :: n <= i < |kept| ==> kept[i].Text?
  {
    if blocks != [] {
      var m := if n == 0 then 0 else n - 1;
      assert forall i :: 0 <= i < |blocks| - 1 ==> blocks[1..][i] == blocks[i + 1];
      DropTextsAfterResults(blocks[1..], m, instructions);
    }
  }

  lemma FilteredAnswer(m: Message, ids: set<string>, instructions: seq<string>)
    requires Answers(m, ids) && ids != {}
    ensures |Filtered(m, instructions)| == 1 && Answers(Filtered(m, instructions)[0], ids)
  {
    var blocks := BlocksOf(m);
    DropTextsAfterResults(blocks, |ids|, instructions);
    var kept := DropTexts(blocks, instructions);
    assert forall i :: 0 <= i < |ids| ==> kept[i] == kept[..|ids|][i] == blocks[i];
  }

  lemma FilteredSingle(m: Message, instructions: seq<string>)
    requires Single(m)
    ensures Filtered(m, instructions) == []
            || (|Filtered(m, instructions)| == 1 && Single(Filtered(m, instructions)[0]))
  {
    DropTextsKeeps(BlocksOf(m), instructions);
  }

  lemma {:induction false} DialogueAppend(ms: seq<Message>, ns: seq<Message>, instructions: seq<string>)
    ensures Dialogue(ms + ns, instructions) == Dialogue(ms, instructions) + Dialogue(ns, instructions)
  {
    if ms == [] {
      assert ms + ns == ns;
    } else {
      assert (ms + ns)[1..] == ms[1..] + ns;
      DialogueAppend(ms[1..], ns, instructions);
    }
  }

  lemma RewrittenAppend(ms: seq<Message>, ns: seq<Message>, instructions: seq<string>)
    ensures Rewritten(ms + ns, instructions) == Rewritten(ms, instructions) + Rewritten(ns, instructions)
  {
    DialogueAppend(ms, ns, instructions);
  }

  lemma DialogueOfGroup(g: seq<Message>, instructions: seq<string>)
    requires 1 <= |g| <= 2
    ensures Dialogue(g, instructions)
            == Filtered(g[0], instructions) + if |g| == 1 then [] else Filtered(g[1], instructions)
  {
    assert g[1..] == [] || (g[1..] == [g[1]] && g[1..][1..] == []);
    if |g| == 2 { assert Dialogue(g[1..], instructions) == Filtered(g[1], instructions) + []; }
  }

  /** A group is dropped whole or becomes a group with the same ids. */
  lemma GroupRewritten(g: seq<Message>, instructions: seq<string>)
    requires IsGroup(g)
    ensures var r := Rewritten(g, instructions);
      || (r == [] && UseIds(g[0]) == {})
      || (IsGroup(r) && |r| == |g| && UseIds(r[0]) == UseIds(g[0]))
  {
    var d := Dialogue(g, instructions);
    DialogueOfGroup(g, instructions);
    if |g| == 1 {
      FilteredSingle(g[0], instructions);
      if d != [] {
        CompactSkeleton(d[0]);
        SkeletonDecides(d[0], CompactMessage(d[0]));
      }
    } else {
      var ids := UseIds(g[0]);
      assert Uses(BlocksOf(g[0]))[0].id in ids;
      FilteredAnswer(g[1], ids, instructions);
      assert d == [g[0]] + Filtered(g[1], instructions);
      CompactSkeleton(d[0]);
      SkeletonDecides(d[0], CompactMessage(d[0]));
      CompactSkeleton(d[1]);
      SkeletonDecides(d[1], CompactMessage(d[1]));
    }
  }

  /** The groups of the rewritten dialogue. */
  function RewrittenGroups(groups: seq<seq<Message>>, instructions: seq<string>): seq<seq<Message>> {
    if groups == [] then []
    else
      var g := Rewritten(groups[0], instructions);
      (if g == [] then [] else [g]) + RewrittenGroups(groups[1..], instructions)
  }

  lemma PrependRewritten(
      r: seq<Message>, tail: seq<Message>, ids: set<string>, groups: seq<seq<Message>>, seen: set<string>)
    requires (r == [] && ids == {}) || (IsGroup(r) && UseIds(r[0]) == ids)
    requires ids !! seen && Parse(tail, seen + ids) == Some(groups)
    ensures Parse(r + tail, seen) == Some((if r == [] then [] else [r]) + groups)
  {
    if r == [] {
      assert seen + ids == seen && r + tail == tail && [] + groups == groups;
    } else {
      ParseStep(r, tail, seen);
    }
  }

  lemma RewriteStep(
      g: seq<Message>, rest: seq<Message>, groups: seq<seq<Message>>, seen: set<string>, instructions: seq<string>)
    requires IsGroup(g) && UseIds(g[0]) !! seen
    requires Parse(Rewritten(rest, instructions), seen + UseIds(g[0])) == Some(RewrittenGroups(groups, instructions))
    ensures Parse(Rewritten(g, instructions) + Rewritten(rest, instructions), seen)
            == Some(RewrittenGroups([g] + groups, instructions))
  {
    GroupRewritten(g, instructions);
    assert ([g] + groups)[1..] == groups;
    PrependRewritten(Rewritten(g, instructions), Rewritten(rest, instructions), UseIds(g[0]),
      RewrittenGroups(groups, instructions), seen);
  }

  /** Filtering and rewriting act exchange by exchange, so a well-formed dialogue stays one. */
  lemma {:induction false} RewriteKeepsGrammar(ms: seq<Message>, seen: set<string>, instructions: seq<string>)
    requires Parse(ms, seen).Some?
    ensures Parse(Rewritten(ms, instructions), seen) == Some(RewrittenGroups(Parse(ms, seen).value, instructions))
    decreases |ms|
  {
    if ms != [] {
      var g, rest := ParseHead(ms, seen);
      assert |rest| < |ms|;
      RewriteKeepsGrammar(rest, seen + UseIds(g[0]), instructions);
      RewriteStep(g, rest, Parse(rest, seen + UseIds(g[0])).value, seen, instructions);
      RewrittenAppend(g, rest, instructions);
    }
  }

  // ---------------------------------------------------------------- what the caller is told

  datatype Stats = Stats(changedMessages: nat, compactedBlocks: nat, compactedToolResults: nat, removedMessages: nat)

  datatype Compacted = Compacted(messages: seq<Message>, stats: Stats)

  function ChangedBlocks(blocks: seq<Block>, role: Role): nat {
    if blocks == [] then 0
    else (if CompactBlock(blocks[0], role) != blocks[0] then 1 else 0) + ChangedBlocks(blocks[1..], role)
  }

  function ChangedResults(blocks: seq<Block>, role: Role): nat {
    if blocks == [] then 0
    else (if blocks[0].ResultBlock? && CompactBlock(blocks[0], role) != blocks[0] then 1 else 0)
         + ChangedResults(blocks[1..], role)
  }

  function StatsOf(m: Message): Stats {
    if m.content.Plain? then if CompactMessage(m) == m then Stats(0, 0, 0, 0) else Stats(1, 1, 0, 0)
    else
      var changed := ChangedBlocks(m.content.blocks, m.role);
      if changed == 0 then Stats(0, 0, 0, 0) else Stats(1, changed, ChangedResults(m.content.blocks, m.role), 0)
  }

  function Total(ms: seq<Message>): Stats {
    if ms == [] then Stats(0, 0, 0, 0)
    else
      var a, b := StatsOf(ms[0]), Total(ms[1..]);
      Stats(a.changedMessages + b.changedMessages, a.compactedBlocks + b.compactedBlocks,
            a.compactedToolResults + b.compactedToolResults, 0)
  }

  lemma {:induction false} NoBlockChanged(blocks: seq<Block>, role: Role)
    ensures ChangedBlocks(blocks, role) == 0
            <==> forall i :: 0 <= i < |blocks| ==> CompactBlock(blocks[i], role) == blocks[i]
  {
    if blocks != [] {
      NoBlockChanged(blocks[1..], role);
      assert forall i :: 0 < i < |blocks| ==> blocks[i] == blocks[1..][i - 1];
      assert forall i :: 0 <= i < |blocks[1..]| ==> blocks[1..][i] == blocks[i + 1];
    }
  }

  lemma UnchangedMessage(m: Message)
    ensures StatsOf(m).changedMessages == 0 <==> CompactMessage(m) == m
  {
    if m.content.Blocks? {
      var blocks := m.content.blocks;
      NoBlockChanged(blocks, m.role);
      var compacted := CompactMessage(m).content.blocks;
      assert forall i :: 0 <= i < |blocks| ==> compacted[i] == CompactBlock(blocks[i], m.role);
      assert compacted == blocks <==> forall i :: 0 <= i < |blocks| ==> compacted[i] == blocks[i];
    }
  }

  /** The counters are zero exactly when the rewriting changed nothing. */
  lemma {:induction false} NothingChanged(ms: seq<Message>)
    ensures Total(ms).changedMessages == 0 <==> CompactAll(ms) == ms
  {
    if ms != [] {
      UnchangedMessage(ms[0]);
      NothingChanged(ms[1..]);
      FirstAndRestUnchanged(ms);
    }
  }

  lemma FirstAndRestUnchanged(ms: seq<Message>)
    requires ms != []
    ensures CompactAll(ms) == ms <==> CompactMessage(ms[0]) == ms[0] && CompactAll(ms[1..]) == ms[1..]
  {
    var all, rest := CompactAll(ms), CompactAll(ms[1..]);
    assert all[0] == CompactMessage(ms[0]) && all[1..] == rest;
    assert all == [all[0]] + all[1..] && ms == [ms[0]] + ms[1..];
  }

  function Join(parts: seq<string>, separator: string): string {
    if parts == [] then "" else if |parts| == 1 then parts[0] else parts[0] + separator + Join(parts[1..], separator)
  }

  function SummarizeBlock(b: Block): string {
    match b
    case Text(_) => "text removed"
    case UseBlock(u) => "tool_use:" + u.id + ":" + u.name
    case ResultBlock(id, _) => "tool_result:" + id + " content removed"
  }

  function SummarizeMessage(m: Message): string {
    if m.content.Plain? then RoleName(m.role) + " text removed"
    else
      var blocks := m.content.blocks;
      RoleName(m.role) + " " + Join(seq(|blocks|, i requires 0 <= i < |blocks| => SummarizeBlock(blocks[i])), " | ")
  }

  /** The first removed messages, numbered. */
  function RemovedLines(ms: seq<Message>): seq<string> {
    var shown := if |ms| < MAX_REMOVED_MESSAGE_PREVIEW then |ms| else MAX_REMOVED_MESSAGE_PREVIEW;
    seq(shown, i requires 0 <= i < shown => Decimal(i + 1) + ". " + SummarizeMessage(ms[i]))
  }

  function FurtherRemoved(ms: seq<Message>): string {
    if |ms| <= MAX_REMOVED_MESSAGE_PREVIEW then ""
    else "\n+ " + Decimal(|ms| - MAX_REMOVED_MESSAGE_PREVIEW) + " more removed message(s)."
  }

  function SummarizeRemoved(ms: seq<Message>): string {
    "removed_messages=" + Decimal(|ms|) + "\n" + Join(RemovedLines(ms), "\n") + FurtherRemoved(ms)
  }

  function Marker(removed: seq<Message>): Message {
    Message(User, Plain(COMPACTION_NOTICE + SummarizeRemoved(removed) + EVIDENCE_NOTICE))
  }

  const COMPACTION_NOTICE := MARKER_PREFIX + " Context compaction applied after provider window overflow.\n"

  const EVIDENCE_NOTICE :=
    "\nExcerpts and removed-message identities are not complete evidence. "
    + "Reacquire required source content before relying on it."

  const CAPSULE_HEADER :=
    MARKER_PREFIX + " Original user instructions below are retained verbatim, in their original order."

  function TextBlocks(texts: seq<string>): seq<Block> { seq(|texts|, i requires 0 <= i < |texts| => Text(texts[i])) }

  function Capsule(instructions: seq<string>): seq<Message> {
    if instructions == [] then [] else [Message(User, Blocks([Text(CAPSULE_HEADER)] + TextBlocks(instructions)))]
  }

  // ---------------------------------------------------------------- the cut

  /** The kept groups are the fewest last ones holding at least four messages, or all of them. */
  ghost predicate IsCut(groups: seq<seq<Message>>, k: nat) {
    && k <= |groups|
    && (k > 0 ==> |Flatten(groups[k..])| >= MAX_RECENT_MESSAGES)
    && (k < |groups| ==> |Flatten(groups[k + 1..])| < MAX_RECENT_MESSAGES)
  }

  lemma FlattenFrom(groups: seq<seq<Message>>, k: nat)
    requires k < |groups|
    ensures Flatten(groups[k..]) == groups[k] + Flatten(groups[k + 1..])
  {
    assert groups[k..][0] == groups[k] && groups[k..][1..] == groups[k + 1..];
  }

  lemma {:induction false} ShorterSuffix(groups: seq<seq<Message>>, j: nat, k: nat)
    requires j <= k <= |groups|
    ensures |Flatten(groups[k..])| <= |Flatten(groups[j..])|
    decreases k - j
  {
    if j < k {
      FlattenFrom(groups, j);
      ShorterSuffix(groups, j + 1, k);
    }
  }

  lemma CutUnique(groups: seq<seq<Message>>, j: nat, k: nat)
    requires IsCut(groups, j) && IsCut(groups, k)
    ensures j == k
  {
    if j < k { ShorterSuffix(groups, j + 1, k); }
    if k < j { ShorterSuffix(groups, k + 1, j); }
  }

  /** The output for the groups of the rewritten dialogue, cut at k. */
  ghost predicate IsCompaction(
      ms: seq<Message>, instructions: seq<string>, groups: seq<seq<Message>>, k: nat, out: Compacted) {
    && IsPartition(groups, Rewritten(ms, instructions)) && IsCut(groups, k)
    && out.stats == Total(Dialogue(ms, instructions)).(removedMessages := |Flatten(groups[..k])|)
    && out.messages == Capsule(instructions) + [Marker(Flatten(groups[..k]))] + Flatten(groups[k..])
  }

  ghost predicate IsCompacted(ms: seq<Message>, instructions: seq<string>, out: Compacted) {
    exists groups, k :: IsCompaction(ms, instructions, groups, k, out)
  }

  /** Nothing to gain: no text was shortened and no exchange falls before the cut. */
  ghost predicate NothingToCompact(ms: seq<Message>, instructions: seq<string>) {
    && Rewritten(ms, instructions) == Dialogue(ms, instructions)
    && exists groups :: IsPartition(groups, Rewritten(ms, instructions)) && IsCut(groups, 0)
  }

  /** The walk back from the end, group by group. */
  method FirstRecentGroup(groups: seq<seq<Message>>) returns (firstRecentGroup: nat)
    ensures IsCut(groups, firstRecentGroup)
  {
    var recentMessageCount := 0;
    firstRecentGroup := |groups|;
    assert groups[|groups|..] == [];
    while firstRecentGroup > 0 && recentMessageCount < MAX_RECENT_MESSAGES
      invariant 0 <= firstRecentGroup <= |groups|
      invariant recentMessageCount == |Flatten(groups[firstRecentGroup..])|
      invariant firstRecentGroup < |groups| ==> |Flatten(groups[firstRecentGroup + 1..])| < MAX_RECENT_MESSAGES
    {
      firstRecentGroup := firstRecentGroup - 1;
      FlattenFrom(groups, firstRecentGroup);
      recentMessageCount := recentMessageCount + |groups[firstRecentGroup]|;
    }
  }

  /** compactMessagesForOverflow. */
  method CompactMessagesForOverflow(ms: seq<Message>, instructions: seq<string>) returns (r: Option<Compacted>)
    ensures r.Some? ==> Accepted(ms) && IsCompacted(ms, instructions, r.value)
    ensures r.None? <==> !Accepted(ms) || NothingToCompact(ms, instructions)
  {
    var wellFormed := PartitionToolExchanges(ms);
    if wellFormed.None? { return None; }
    var dialogue := Dialogue(ms, instructions);
    var compacted := CompactAll(dialogue);
    RewriteKeepsGrammar(ms, {}, instructions);
    var parsed := PartitionToolExchanges(compacted);
    var groups := parsed.value;
    var firstRecentGroup := FirstRecentGroup(groups);
    var removed := Flatten(groups[..firstRecentGroup]);
    var stats := Total(dialogue).(removedMessages := |removed|);
    NothingChanged(dialogue);
    RemovedNothing(groups, firstRecentGroup, compacted);
    if stats.changedMessages == 0 && stats.removedMessages == 0 { return None; }
    var out := Compacted(Capsule(instructions) + [Marker(removed)] + Flatten(groups[firstRecentGroup..]), stats);
    assert IsCompaction(ms, instructions, groups, firstRecentGroup, out);
    return Some(out);
  }

  /** Every group has a message, so nothing is removed exactly when the cut is at the front. */
  lemma RemovedNothing(groups: seq<seq<Message>>, k: nat, ms: seq<Message>)
    requires IsPartition(groups, ms) && IsCut(groups, k)
    ensures Flatten(groups[..k]) == [] <==> k == 0
    ensures k == 0 <==> (exists parts :: IsPartition(parts, ms) && IsCut(parts, 0))
  {
    if k > 0 {
      assert groups[0] in groups && IsGroup(groups[0]);
      assert groups[..k][0] == groups[0];
    }
    if parts :| IsPartition(parts, ms) && IsCut(parts, 0) {
      ParseDecides(ms);
      CutUnique(groups, k, 0);
    }
  }

  // ---------------------------------------------------------------- what a compaction guarantees

  lemma KeptIsShort(groups: seq<seq<Message>>, k: nat, ms: seq<Message>)
    requires IsPartition(groups, ms) && IsCut(groups, k)
    ensures |Flatten(groups[k..])| <= 5 && |Flatten(groups[..k])| + |Flatten(groups[k..])| == |ms|
    ensures IsPartition(groups[k..], Flatten(groups[k..]))
  {
    SuffixAccepted(groups, ms, k);
    if k < |groups| {
      FlattenFrom(groups, k);
      assert groups[k] in groups && IsGroup(groups[k]);
    } else {
      assert groups[k..] == [];
    }
  }

  lemma {:induction false} TextsOf(texts: seq<string>)
    ensures Texts(TextBlocks(texts)) == texts
  {
    if texts != [] {
      TextsOf(texts[1..]);
      assert TextBlocks(texts)[1..] == TextBlocks(texts[1..]);
    }
  }

  lemma CapsuleTexts(instructions: seq<string>)
    ensures Captured(Capsule(instructions)) == if instructions == [] then [] else [CAPSULE_HEADER] + instructions
  {
    if instructions != [] {
      var blocks := [Text(CAPSULE_HEADER)] + TextBlocks(instructions);
      TextsOf(instructions);
      assert blocks[1..] == TextBlocks(instructions);
      assert Captured(Capsule(instructions)) == Texts(blocks) + [];
    }
  }

  lemma {:induction false} SameTexts(a: seq<Block>, b: seq<Block>)
    requires |a| == |b|
    requires forall i :: 0 <= i < |a| ==> (a[i].Text? || b[i].Text? ==> a[i] == b[i])
    ensures Texts(a) == Texts(b)
  {
    if a != [] {
      assert forall i :: 0 <= i < |a| - 1 ==> a[1..][i] == a[i + 1] && b[1..][i] == b[i + 1];
      SameTexts(a[1..], b[1..]);
    }
  }

  lemma UserTextsKept(m: Message)
    ensures CapturedFrom(CompactMessage(m)) == CapturedFrom(m)
  {
    if m.role.User? && m.content.Blocks? { SameTexts(m.content.blocks, CompactMessage(m).content.blocks); }
  }

  lemma {:induction false} DroppedTexts(blocks: seq<Block>, instructions: seq<string>)
    ensures forall t :: t in Texts(DropTexts(blocks, instructions)) ==> t !in instructions
  {
    if blocks != [] {
      DroppedTexts(blocks[1..], instructions);
      var kept, rest := DropTexts(blocks, instructions), DropTexts(blocks[1..], instructions);
      if kept != rest { assert kept[1..] == rest; }
    }
  }

  /** No user text of the rewritten dialogue repeats an instruction. */
  lemma {:induction false} NoRepeats(ms: seq<Message>, instructions: seq<string>)
    ensures forall t :: t in Captured(Rewritten(ms, instructions)) ==> t !in instructions
  {
    if ms != [] {
      NoRepeats(ms[1..], instructions);
      var head := Filtered(ms[0], instructions);
      assert ms == ms[..1] + ms[1..];
      assert ms[..1][1..] == [] && Dialogue(ms[..1], instructions) == head + [];
      RewrittenAppend(ms[..1], ms[1..], instructions);
      CapturedAppend(CompactAll(head), Rewritten(ms[1..], instructions));
      if head != [] {
        UserTextsKept(head[0]);
        assert CompactAll(head) == [CompactMessage(head[0])];
        assert CompactAll(head)[1..] == [] && Captured(CompactAll(head)) == CapturedFrom(head[0]) + [];
        if ms[0].role.User? && ms[0].content.Blocks? { DroppedTexts(ms[0].content.blocks, instructions); }
      }
    }
  }

  lemma PreambleAccepted(instructions: seq<string>, removed: seq<Message>)
    ensures Accepted(Capsule(instructions) + [Marker(removed)])
    ensures AllIds(Capsule(instructions) + [Marker(removed)]) == {}
  {
    var capsule, marker := Capsule(instructions), Marker(removed);
    AcceptedSingle(marker);
    if instructions == [] {
      assert capsule + [marker] == [marker];
    } else {
      NoUses(BlocksOf(capsule[0]));
      assert Single(capsule[0]) && capsule == [capsule[0]];
      AcceptedSingle(capsule[0]);
      AcceptedAppend(capsule, [marker]);
      AllIdsAppend(capsule, [marker]);
    }
  }

  /** Compaction turns a well-formed dialogue into a well-formed one and never splits an exchange:
      what is kept is a suffix of the rewritten dialogue made of whole groups. */
  lemma CompactionAccepted(
      ms: seq<Message>, instructions: seq<string>, groups: seq<seq<Message>>, k: nat, out: Compacted)
    requires IsCompaction(ms, instructions, groups, k, out)
    ensures Accepted(out.messages) && AllIds(out.messages) <= AllIds(Rewritten(ms, instructions))
    ensures IsPartition(groups[k..], Flatten(groups[k..]))
    ensures Rewritten(ms, instructions) == Flatten(groups[..k]) + Flatten(groups[k..])
  {
    var removed, kept := Flatten(groups[..k]), Flatten(groups[k..]);
    SuffixAccepted(groups, Rewritten(ms, instructions), k);
    AllIdsAppend(removed, kept);
    PreambleAccepted(instructions, removed);
    var preamble := Capsule(instructions) + [Marker(removed)];
    AcceptedAppend(preamble, kept);
    AllIdsAppend(preamble, kept);
  }

  /** At most five messages are kept, at most seven come out, and none is unaccounted for. */
  lemma CompactionBounded(
      ms: seq<Message>, instructions: seq<string>, groups: seq<seq<Message>>, k: nat, out: Compacted)
    requires IsCompaction(ms, instructions, groups, k, out)
    ensures |Flatten(groups[k..])| <= 5 && |out.messages| <= 7
    ensures out.stats.removedMessages + |Flatten(groups[k..])| == |Dialogue(ms, instructions)|
  {
    KeptIsShort(groups, k, Rewritten(ms, instructions));
  }

  lemma CapturedOutput(instructions: seq<string>, marker: Message, kept: seq<Message>)
    requires marker.role.User? && marker.content.Plain?
    ensures Captured(Capsule(instructions) + [marker] + kept)
            == (if instructions == [] then [] else [CAPSULE_HEADER] + instructions)
               + [marker.content.text] + Captured(kept)
  {
    CapsuleTexts(instructions);
    CapturedAppend(Capsule(instructions), [marker]);
    CapturedAppend(Capsule(instructions) + [marker], kept);
    assert [marker][1..] == [] && Captured([marker]) == [marker.content.text] + [];
  }

  /** No instruction is lost or repeated: what the program would capture from the output is the
      instructions in order, the marker, then user texts that repeat none of them. */
  lemma CompactionKeepsInstructions(
      ms: seq<Message>, instructions: seq<string>, groups: seq<seq<Message>>, k: nat, out: Compacted)
    requires IsCompaction(ms, instructions, groups, k, out)
    ensures Captured(out.messages)
            == (if instructions == [] then [] else [CAPSULE_HEADER] + instructions)
               + [Marker(Flatten(groups[..k])).content.text] + Captured(Flatten(groups[k..]))
    ensures forall t :: t in Captured(Flatten(groups[k..])) ==> t !in instructions
  {
    CapturedOutput(instructions, Marker(Flatten(groups[..k])), Flatten(groups[k..]));
    SuffixAccepted(groups, Rewritten(ms, instructions), k);
    NoRepeats(ms, instructions);
    CapturedAppend(Flatten(groups[..k]), Flatten(groups[k..]));
  }
}
