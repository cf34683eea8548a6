/** The agent's turn loop over one run: model calls, tool turns, recovery after a crash, the retry
    after a truncated response and compaction after an overflow. */
module AgentLoop {
  import opened Common
  import M = Manifest
  import P = ToolProtocol
  import D = ToolDispatch
  import opened ToolGroups
  import opened Transcript
  import opened Compaction
  import opened RuntimeState

  datatype StopKind = Completion | ToolUseStop | Truncation | UnknownStop

  /** Garbled: content that snapshotAssistantContent refuses, or tool uses that are no plain data. */
  datatype ModelReply = Fails(error: string) | Garbled | Responds(blocks: seq<Block>, stop: StopKind)

  /** Everything the loop does not decide itself.  Model and tools answer per turn; turn 0 of the
      tools is the recovery pass.  `thrown` is the text of an error raised while a reply is handled. */
  datatype World = World(
    maxTurns: nat,
    model: nat -> ModelReply,
    tools: nat -> string -> M.Reply,
    policy: Policy,
    targetOk: ToolUse -> bool,
    approvalRun: string,
    overflow: string -> bool,
    thrown: nat -> string,
    hash: string -> string)

  datatype AgentEnd = Done | DiminishingReturns | MaxTurns | ApprovalRequired | ToolOutcomeUnknown | ErrorEvent | Thrown

  datatype Handled = Continue(messages: seq<Message>) | Stop(end: AgentEnd) | Throw

  // ---------------------------------------------------------------- tool uses as attempts

  function IdentityOf(u: ToolUse): M.Identity { M.Identity(u.id, u.name, u.input) }

  function Identities(uses: seq<ToolUse>): seq<M.Identity> {
    seq(|uses|, i requires 0 <= i < |uses| => IdentityOf(uses[i]))
  }

  function IdentityGroups(groups: seq<seq<ToolUse>>): seq<seq<M.Identity>> {
    seq(|groups|, i requires 0 <= i < |groups| => Identities(groups[i]))
  }

  function TurnOf(w: World, uses: seq<ToolUse>): P.Turn {
    P.Turn(IdentityGroups(Batches(uses, w.policy)), w.approvalRun)
  }

  lemma {:induction false} FlattenIdentities(groups: seq<seq<ToolUse>>)
    ensures Flatten(IdentityGroups(groups)) == Identities(Flatten(groups))
  {
    if groups != [] {
      FlattenIdentities(groups[1..]);
      assert IdentityGroups(groups)[1..] == IdentityGroups(groups[1..]);
    }
  }

  lemma TurnAttempts(w: World, uses: seq<ToolUse>)
    ensures P.Attempts(TurnOf(w, uses)) == Identities(uses)
    ensures M.DistinctSteps(Identities(uses)) <==> DistinctIds(uses)
  {
    BatchesFlatten(uses, w.policy);
    FlattenIdentities(Batches(uses, w.policy));
    var ids := Identities(uses);
    assert forall i :: 0 <= i < |uses| ==> ids[i].stepId == uses[i].id;
    if M.DistinctSteps(ids) {
      forall i, k | 0 <= i < k < |uses|
        ensures uses[i].id != uses[k].id
      {
        assert ids[i].stepId != ids[k].stepId;
      }
    }
  }

  // ---------------------------------------------------------------- the results of a turn

  function ResultBlocks(results: seq<(string, M.ToolResult)>): seq<Block> {
    seq(|results|, i requires 0 <= i < |results| => ResultBlock(results[i].0, results[i].1.rawText))
  }

  predicate InOrderOf(results: seq<(string, M.ToolResult)>, attempts: seq<M.Identity>) {
    |results| == |attempts| && forall i :: 0 <= i < |attempts| ==> results[i].0 == attempts[i].stepId
  }

  lemma {:induction false} BatchResultsInOrder(batch: seq<M.Identity>, ends: seq<P.Member>)
    requires |batch| == |ends| && forall i :: 0 <= i < |ends| ==> ends[i].Returned?
    ensures InOrderOf(D.BatchResults(batch, ends), batch)
  {
    if batch != [] { BatchResultsInOrder(batch[1..], ends[1..]); }
  }

  lemma CompletedBatch(
      t: P.Turn, batch: seq<M.Identity>, classes: map<string, M.Classification>, tools: string -> M.Reply)
    requires P.Steps(batch) <= classes.Keys && D.BatchVerdict(D.BatchEnds(t, batch, classes, tools)).Completed?
    ensures InOrderOf(D.BatchResults(batch, D.BatchEnds(t, batch, classes, tools)), batch)
  {
    D.AllReturned(t, batch, classes, tools);
    BatchResultsInOrder(batch, D.BatchEnds(t, batch, classes, tools));
  }

  lemma JoinInOrder(
      a: seq<(string, M.ToolResult)>, b: seq<(string, M.ToolResult)>, xs: seq<M.Identity>, ys: seq<M.Identity>)
    requires InOrderOf(a, xs) && InOrderOf(b, ys)
    ensures InOrderOf(a + b, xs + ys)
  {
  }

  lemma {:induction false} CompletedInOrder(
      t: P.Turn, groups: seq<seq<M.Identity>>, used: set<string>, classes: map<string, M.Classification>,
      tools: string -> M.Reply)
    requires P.Steps(Flatten(groups)) <= classes.Keys && D.BatchesEnd(t, groups, used, classes, tools).Completed?
    ensures InOrderOf(D.BatchesEnd(t, groups, used, classes, tools).results, Flatten(groups))
  {
    if groups != [] {
      P.StepsAppend(groups[0], Flatten(groups[1..]));
      CompletedBatch(t, groups[0], classes, tools);
      var more := used + P.Steps(P.ToDispatch(groups[0], classes));
      CompletedInOrder(t, groups[1..], more, classes, tools);
      JoinInOrder(D.BatchResults(groups[0], D.BatchEnds(t, groups[0], classes, tools)),
        D.BatchesEnd(t, groups[1..], more, classes, tools).results, groups[0], Flatten(groups[1..]));
    }
  }

  lemma {:induction false} DistinctCount(uses: seq<ToolUse>)
    requires DistinctIds(uses)
    ensures |Ids(uses)| == |uses|
  {
    if uses != [] {
      DistinctCount(uses[1..]);
      assert forall i :: 0 < i < |uses| ==> uses[0].id != uses[i].id;
      assert uses[0].id !in Ids(uses[1..]);
      assert Ids(uses) == {uses[0].id} + Ids(uses[1..]);
    }
  }

  /** The results of a completed turn answer its calls. */
  lemma ResultsAnswer(uses: seq<ToolUse>, results: seq<(string, M.ToolResult)>)
    requires DistinctIds(uses) && InOrderOf(results, Identities(uses))
    ensures Answering(ResultBlocks(results), Ids(uses))
  {
    DistinctCount(uses);
    forall i | 0 <= i < |uses|
      ensures ResultBlocks(results)[i].useId == uses[i].id && uses[i].id in Ids(uses)
    {
      assert uses[i] in uses;
    }
  }

  function ResultMessage(results: seq<(string, M.ToolResult)>): Message { Message(User, Blocks(ResultBlocks(results))) }

  lemma TurnAnswers(w: World, uses: seq<ToolUse>, j: M.Journal, tools: string -> M.Reply)
    requires DistinctIds(uses) && D.TurnOutcome(TurnOf(w, uses), j, tools).Completed?
    ensures Answers(ResultMessage(D.TurnOutcome(TurnOf(w, uses), j, tools).results), Ids(uses))
  {
    var t := TurnOf(w, uses);
    TurnAttempts(w, uses);
    CompletedInOrder(t, t.groups, {}, D.ClassesOf(t, j), tools);
    ResultsAnswer(uses, D.TurnOutcome(t, j, tools).results);
  }

  lemma {:induction false} ObservedNotStarted(j: M.Journal, attempts: seq<M.Identity>, x: string)
    requires x in j ==> j[x].Pending? && j[x].state == M.NotStarted
    requires x in P.Steps(attempts)
    ensures M.ClassOf(M.ObserveAll(j, attempts), x) == M.Open(M.NotStarted)
  {
    var n := |attempts| - 1;
    var front := attempts[..n];
    assert attempts == front + [attempts[n]];
    if x in P.Steps(front) {
      ObservedNotStarted(j, front, x);
    } else {
      M.ObserveAllEntries(j, front);
    }
  }

  /** A recovery that finds nothing unknown or missing appends what the turn would have appended had
      it not been interrupted: the same results, in the same order, with the same content. */
  lemma RecoveryAppendsTheSame(
      w: World, uses: seq<ToolUse>, s: P.State, actions: seq<P.Action>, tools: string -> M.Reply)
    requires P.Initial(TurnOf(w, uses), s) && P.Run(TurnOf(w, uses), s, actions).Some?
    requires forall a :: a in actions ==> P.Obeys(a, tools)
    requires !P.UnsafeTurn(TurnOf(w, uses), P.Run(TurnOf(w, uses), s, actions).value.journal)
    ensures D.TurnOutcome(TurnOf(w, uses), P.Run(TurnOf(w, uses), s, actions).value.journal, tools)
            == D.TurnOutcome(TurnOf(w, uses), M.ObserveAll(s.journal, Identities(uses)), tools)
  {
    var t := TurnOf(w, uses);
    TurnAttempts(w, uses);
    D.CrashTransparency(t, s, actions, tools);
    var observed := P.Apply(t, s, P.Observe);
    assert [P.Observe][1..] == [] && P.Run(t, s, [P.Observe]) == Some(observed);
    forall x | x in P.TurnSteps(t)
      ensures !P.Unsafe(M.ClassOf(observed.journal, x))
    {
      ObservedNotStarted(s.journal, Identities(uses), x);
    }
    D.CrashTransparency(t, s, [P.Observe], tools);
  }

  // ---------------------------------------------------------------- one step of the dialogue

  /** How a handled reply extends the dialogue. */
  ghost predicate Continues(messages: seq<Message>, blocks: seq<Block>, next: seq<Message>) {
    if Uses(blocks) == [] then next == messages + TruncationTurn(blocks)
    else
      && DistinctIds(Uses(blocks))
      && exists u :: Answers(u, Ids(Uses(blocks))) && next == messages + [Message(Assistant, Blocks(blocks)), u]
  }

  /** New ids, and no tool_result from the model. */
  predicate FreshReply(messages: seq<Message>, blocks: seq<Block>) {
    Ids(Uses(blocks)) !! AllIds(messages) && NoResults(blocks)
  }

  /** The extended dialogue is well formed exactly when the reply was fresh. */
  lemma ContinuesAccepted(messages: seq<Message>, blocks: seq<Block>, next: seq<Message>)
    requires Accepted(messages) && Continues(messages, blocks, next)
    ensures Accepted(next) <==> FreshReply(messages, blocks)
  {
    var a := Message(Assistant, Blocks(blocks));
    if Uses(blocks) == [] {
      var notice := TruncationTurn(blocks)[1];
      assert TruncationTurn(blocks) == [a] + [notice];
      AcceptedSingle(a);
      AcceptedSingle(notice);
      PairAccepted(a, notice);
      AcceptedAppend(messages, TruncationTurn(blocks));
    } else {
      var u :| Answers(u, Ids(Uses(blocks))) && next == messages + [a, u];
      AcceptedExchange(a, u);
      AcceptedAppend(messages, [a, u]);
    }
  }

  lemma PairAccepted(a: Message, notice: Message)
    requires Uses(BlocksOf(a)) == [] && Single(notice)
    ensures Accepted([a] + [notice]) <==> NoResults(BlocksOf(a))
    ensures Accepted([a] + [notice]) ==> AllIds([a] + [notice]) == {}
  {
    AcceptedSingle(a);
    AcceptedSingle(notice);
    if NoResults(BlocksOf(a)) {
      AcceptedAppend([a], [notice]);
      AllIdsAppend([a], [notice]);
    } else {
      ParseDecides([a] + [notice]);
      assert ([a] + [notice])[0] == a;
    }
  }

  // ---------------------------------------------------------------- a whole run

  ghost predicate Follows(instructions: seq<string>, messages: seq<Message>, reply: ModelReply, next: seq<Message>) {
    || (reply.Responds? && Continues(messages, reply.blocks, next))
    || CompactsTo(messages, instructions, next)
  }

  ghost predicate CompactsTo(messages: seq<Message>, instructions: seq<string>, next: seq<Message>) {
    exists out :: IsCompacted(messages, instructions, out) && next == out.messages
  }

  lemma FollowsAccepted(instructions: seq<string>, messages: seq<Message>, reply: ModelReply, next: seq<Message>)
    requires Accepted(messages) && Follows(instructions, messages, reply, next)
    requires reply.Responds? ==> FreshReply(messages, reply.blocks)
    ensures Accepted(next)
  {
    if reply.Responds? && Continues(messages, reply.blocks, next) {
      ContinuesAccepted(messages, reply.blocks, next);
    } else {
      var out :| IsCompacted(messages, instructions, out) && next == out.messages;
      var groups, k :| IsCompaction(messages, instructions, groups, k, out);
      CompactionAccepted(messages, instructions, groups, k, out);
    }
  }

  /** The calls a transcript ends with, still to be answered. */
  function PendingUses(messages: seq<Message>): seq<ToolUse> {
    if messages == [] then []
    else
      var last := messages[|messages| - 1];
      if last.role.Assistant? && last.content.Blocks? then Uses(last.content.blocks) else []
  }

  /** All well formed but for a last turn whose calls are not answered. */
  ghost predicate Unanswered(messages: seq<Message>) {
    && messages != []
    && Accepted(messages[..|messages| - 1]) && Opens(messages[|messages| - 1])
    && UseIds(messages[|messages| - 1]) !! AllIds(messages[..|messages| - 1])
  }

  /** Well formed, or lacking only the answer to a trailing tool turn. */
  ghost predicate GoodStart(messages: seq<Message>) { Accepted(messages) || Unanswered(messages) }

  /** What the first model call sees. */
  ghost predicate Opening(messages: seq<Message>, first: seq<Message>) {
    if PendingUses(messages) == [] then first == messages
    else exists u :: Answers(u, Ids(PendingUses(messages))) && first == messages + [u]
  }

  lemma GroupAnswered(g: seq<Message>)
    requires IsGroup(g)
    ensures PendingUses(g) == []
  {
    if |g| == 2 { AnswerHasNoUses(g[1], UseIds(g[0])); }
  }

  lemma {:induction false} NothingPending(messages: seq<Message>, seen: set<string>)
    requires Parse(messages, seen).Some?
    ensures PendingUses(messages) == []
    decreases |messages|
  {
    if messages != [] {
      var g, rest := ParseHead(messages, seen);
      if rest == [] {
        assert g + rest == g;
        GroupAnswered(g);
      } else {
        assert messages[|messages| - 1] == rest[|rest| - 1];
        NothingPending(rest, seen + UseIds(g[0]));
      }
    }
  }

  lemma AnsweredAccepted(before: seq<Message>, a: Message, u: Message)
    requires Accepted(before) && Opens(a) && UseIds(a) !! AllIds(before) && Answers(u, UseIds(a))
    ensures Accepted(before + [a] + [u])
  {
    AcceptedExchange(a, u);
    AcceptedAppend(before, [a, u]);
    ConcatAssoc(before, [a], [u]);
    assert [a] + [u] == [a, u];
  }

  lemma UnansweredAccepted(messages: seq<Message>, u: Message)
    requires Unanswered(messages) && Answers(u, Ids(PendingUses(messages)))
    ensures Accepted(messages + [u])
  {
    LastApart(messages);
    AnsweredAccepted(messages[..|messages| - 1], messages[|messages| - 1], u);
  }

  lemma LastApart(messages: seq<Message>)
    requires messages != []
    ensures messages[..|messages| - 1] + [messages[|messages| - 1]] == messages
  {
  }

  lemma AcceptedNotPending(messages: seq<Message>)
    requires Accepted(messages)
    ensures PendingUses(messages) == []
  {
    ParseDecides(messages);
    NothingPending(messages, {});
  }

  lemma OpeningAccepted(messages: seq<Message>, first: seq<Message>)
    requires GoodStart(messages) && Opening(messages, first)
    ensures Accepted(first)
  {
    if Accepted(messages) {
      AcceptedNotPending(messages);
    } else {
      var u :| Answers(u, Ids(PendingUses(messages))) && first == messages + [u];
      UnansweredAccepted(messages, u);
    }
  }

  /** The dialogues sent to the model, one after the other. */
  ghost predicate Chain(w: World, messages: seq<Message>, sent: seq<seq<Message>>) {
    && (sent != [] ==> Opening(messages, sent[0]))
    && forall n :: 0 <= n < |sent| - 1 ==> Follows(Captured(messages), sent[n], w.model(n), sent[n + 1])
  }

  ghost predicate FreshReplies(w: World, sent: seq<seq<Message>>, n: nat) {
    forall k :: 0 <= k < n < |sent| && w.model(k).Responds? ==> FreshReply(sent[k], w.model(k).blocks)
  }

  /** Run-long invariant: from a good start, every model call up to the first stale reply sees a
      well-formed dialogue. */
  lemma {:induction false} EveryCallAccepted(w: World, messages: seq<Message>, sent: seq<seq<Message>>, n: nat)
    requires Chain(w, messages, sent) && GoodStart(messages) && n < |sent| && FreshReplies(w, sent, n)
    ensures Accepted(sent[n])
  {
    if n == 0 {
      OpeningAccepted(messages, sent[0]);
    } else {
      EveryCallAccepted(w, messages, sent, n - 1);
      FollowsAccepted(Captured(messages), sent[n - 1], w.model(n - 1), sent[n]);
    }
  }
}
