/** What the turns of a run add to the dialogue, read off the calls and the tools' own results. */
module DialogueTurns {
  import opened Common
  import M = Manifest
  import P = ToolProtocol
  import D = ToolDispatch
  import opened ToolGroups
  import opened Transcript
  import opened Compaction
  import opened RuntimeState
  import opened AgentLoop
  import opened AgentRunner
  import opened AgentRun
  import opened PassMeaning
  import opened ToolGain

  /** The attempts of a turn are its calls, in order, under their own ids, names and inputs. */
  lemma AttemptsAreCalls(w: World, uses: seq<ToolUse>)
    ensures var attempts := P.Attempts(TurnOf(w, uses));
      && |attempts| == |uses|
      && forall i :: 0 <= i < |uses| ==>
           && attempts[i].stepId == uses[i].id && attempts[i].toolName == uses[i].name
           && attempts[i].input == uses[i].input
  {
    TurnAttempts(w, uses);
  }

  /** A user message with the text of each call's own result under the id of the call, in order. */
  ghost predicate HoldsResults(m: Message, uses: seq<ToolUse>, j: M.Journal, tools: string -> M.Reply) {
    && m.role.User? && m.content.Blocks? && |m.content.blocks| == |uses|
    && forall i :: 0 <= i < |uses| ==>
         && Own(j, uses[i].id, tools).Some?
         && m.content.blocks[i] == ResultBlock(uses[i].id, Own(j, uses[i].id, tools).value.rawText)
  }

  /** Every result of the turn, committed or replied, is an ordinary one. */
  ghost predicate CallsUsable(uses: seq<ToolUse>, j: M.Journal, tools: string -> M.Reply) {
    forall i :: 0 <= i < |uses| ==> Usable(j, uses[i].id, tools)
  }

  ghost predicate CallsKnown(uses: seq<ToolUse>, j: M.Journal) {
    forall i :: 0 <= i < |uses| ==>
      uses[i].id in j && (j[uses[i].id].Committed? || j[uses[i].id].state == M.NotStarted)
  }

  /** The attempts of t are the calls. */
  ghost predicate Attempted(t: P.Turn, uses: seq<ToolUse>) {
    |P.Attempts(t)| == |uses| && forall i :: 0 <= i < |uses| ==> P.Attempts(t)[i].stepId == uses[i].id
  }

  lemma StepsAreIds(t: P.Turn, uses: seq<ToolUse>, x: string)
    requires Attempted(t, uses)
    ensures x in P.TurnSteps(t) <==> exists i :: 0 <= i < |uses| && uses[i].id == x
  {
    var attempts := P.Attempts(t);
    if a :| a in attempts && a.stepId == x {
      var i :| 0 <= i < |attempts| && attempts[i] == a;
      assert uses[i].id == x;
    }
    if i :| 0 <= i < |uses| && uses[i].id == x { assert attempts[i] in attempts; }
  }

  lemma KnownMeans(t: P.Turn, uses: seq<ToolUse>, j: M.Journal)
    requires Attempted(t, uses)
    ensures NothingUnknown(t, j) <==> CallsKnown(uses, j)
  {
    forall x { StepsAreIds(t, uses, x); }
  }

  lemma UsableMeans(t: P.Turn, uses: seq<ToolUse>, j: M.Journal, tools: string -> M.Reply)
    requires Attempted(t, uses)
    ensures AllUsable(j, P.Attempts(t), tools) <==> CallsUsable(uses, j, tools)
  {
    var attempts := P.Attempts(t);
    if CallsUsable(uses, j, tools) {
      forall a | a in attempts
        ensures Usable(j, a.stepId, tools)
      {
        var i :| 0 <= i < |attempts| && attempts[i] == a;
        assert Usable(j, uses[i].id, tools);
      }
    }
    if AllUsable(j, attempts, tools) {
      forall i | 0 <= i < |uses|
        ensures Usable(j, uses[i].id, tools)
      {
        assert attempts[i] in attempts;
      }
    }
  }

  lemma TurnKnown(w: World, uses: seq<ToolUse>, j: M.Journal, tools: string -> M.Reply)
    ensures NothingUnknown(TurnOf(w, uses), j) <==> CallsKnown(uses, j)
    ensures AllUsable(j, P.Attempts(TurnOf(w, uses)), tools) <==> CallsUsable(uses, j, tools)
  {
    AttemptsAreCalls(w, uses);
    KnownMeans(TurnOf(w, uses), uses, j);
    UsableMeans(TurnOf(w, uses), uses, j, tools);
  }

  /** A turn of distinct calls completes if and only if none is unknown or missing and every result is
      ordinary; its message then holds exactly those results. */
  lemma CompletedTurn(w: World, uses: seq<ToolUse>, j: M.Journal, tools: string -> M.Reply)
    requires DistinctIds(uses)
    ensures var end := D.TurnOutcome(TurnOf(w, uses), j, tools);
      && (end.Completed? <==> CallsKnown(uses, j) && CallsUsable(uses, j, tools))
      && (end.Completed? ==> HoldsResults(ResultMessage(end.results), uses, j, tools))
  {
    var t := TurnOf(w, uses);
    TurnKnown(w, uses, j, tools);
    TurnAttempts(w, uses);
    AttemptsAreCalls(w, uses);
    if NothingUnknown(t, j) { PassEndsAs(t, j, tools); } else { UnknownPassEnds(t, j, tools); }
  }

  /** A reply that calls tools goes on only with itself and the message of its results. */
  lemma ToolTurnAdds(w: World, turn: nat, reply: ModelReply, a: LoopState, b: LoopState, next: seq<Message>)
    requires reply.Responds? && Uses(reply.blocks) != [] && Handles(w, turn, reply, a, b, Continue(next))
    ensures var uses := Uses(reply.blocks);
      var j := M.ObserveAll(a.journal, Identities(uses));
      && |next| == |a.messages| + 2 && next[..|a.messages|] == a.messages
      && next[|a.messages|] == Message(Assistant, Blocks(reply.blocks))
      && CallsUsable(uses, j, w.tools(turn)) && HoldsResults(next[|a.messages| + 1], uses, j, w.tools(turn))
  {
    var uses := Uses(reply.blocks);
    CompletedTurn(w, uses, M.ObserveAll(a.journal, Identities(uses)), w.tools(turn));
  }

  /** A truncated reply goes on with itself and a marked notice of the user. */
  lemma TruncationAdds(w: World, turn: nat, reply: ModelReply, a: LoopState, b: LoopState, next: seq<Message>)
    requires reply.Responds? && Uses(reply.blocks) == [] && Handles(w, turn, reply, a, b, Continue(next))
    ensures reply.stop.Truncation? && reply.blocks != [] && a.truncations == 0 && b.truncations == 1
    ensures |next| == |a.messages| + 2 && next[..|a.messages|] == a.messages
    ensures next[|a.messages|] == Message(Assistant, Blocks(reply.blocks))
    ensures var notice := next[|a.messages| + 1];
      notice.role.User? && notice.content.Plain? && "[runtime marker]" <= notice.content.text
  {
  }

  /** The calls a transcript ends with are those of its last message, if that is the assistant's. */
  lemma PendingAreLast(messages: seq<Message>)
    requires messages != []
    ensures var last := messages[|messages| - 1];
      PendingUses(messages) == if last.role.Assistant? then Uses(BlocksOf(last)) else []
  {
  }

  /** Recovery goes on with the dialogue and the message of the results. */
  lemma RecoveryAdds(w: World, messages: seq<Message>, j: M.Journal, after: M.Journal, next: seq<Message>)
    requires Resolved(w, messages, j, after, Some(Continue(next))) && DistinctIds(PendingUses(messages))
    ensures |next| == |messages| + 1 && next[..|messages|] == messages
    ensures CallsUsable(PendingUses(messages), j, w.tools(0))
    ensures HoldsResults(next[|messages|], PendingUses(messages), j, w.tools(0))
  {
    CompletedTurn(w, PendingUses(messages), j, w.tools(0));
  }

  lemma OwnOfTurn(w: World, uses: seq<ToolUse>, j: M.Journal, tools: string -> M.Reply)
    requires DistinctIds(uses) && D.TurnOutcome(TurnOf(w, uses), j, tools).Completed?
    ensures var results := D.TurnOutcome(TurnOf(w, uses), j, tools).results;
      && |results| == |uses|
      && forall i :: 0 <= i < |uses| ==>
           results[i].0 == uses[i].id && Own(j, uses[i].id, tools) == Some(results[i].1)
  {
    var t := TurnOf(w, uses);
    TurnAttempts(w, uses);
    AttemptsAreCalls(w, uses);
    if NothingUnknown(t, j) { PassEndsAs(t, j, tools); } else { UnknownPassEnds(t, j, tools); }
  }

  /** What a completed tool turn of the loop has as results. */
  lemma CompletionMeaning(w: World, turn: nat, j: M.Journal)
    requires CompletedWith(w, turn, j).Some?
    ensures w.model(turn).Responds?
    ensures var c: ToolTurnEnd := CompletedWith(w, turn, j).value;
      var j1 := M.ObserveAll(j, Identities(Uses(w.model(turn).blocks)));
      && c.uses == Uses(w.model(turn).blocks) && |c.results| == |c.uses|
      && forall i :: 0 <= i < |c.uses| ==>
           c.results[i].0 == c.uses[i].id && Own(j1, c.uses[i].id, w.tools(turn + 1)) == Some(c.results[i].1)
  {
    var uses := Uses(w.model(turn).blocks);
    var j1 := M.ObserveAll(j, Identities(uses));
    OwnOfTurn(w, uses, j1, w.tools(turn + 1));
  }
}
