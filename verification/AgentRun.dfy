/** Whole runs of the agent: what the loop goes through, and what holds at every model call. */
module AgentRun {
  import opened Common
  import M = Manifest
  import opened ToolGroups
  import opened Transcript
  import opened Compaction
  import opened RuntimeState
  import opened AgentLoop
  import opened AgentRunner

  // ---------------------------------------------------------------- runs as traces

  /** A turn after which the loop goes on in state b. */
  ghost predicate GoesOn(w: World, turn: nat, instructions: seq<string>, a: LoopState, b: LoopState) {
    exists end :: TurnStep(w, turn, instructions, a, b.(messages := a.messages), Some(b.messages), end)
  }

  /** A turn in which the run ends, leaving state b. */
  ghost predicate EndsIn(w: World, turn: nat, instructions: seq<string>, a: LoopState, b: LoopState, end: AgentEnd) {
    TurnStep(w, turn, instructions, a, b, None, end)
  }

  ghost predicate LoopSteps(w: World, instructions: seq<string>, states: seq<LoopState>) {
    states != [] && forall n :: 0 <= n < |states| - 1 ==> GoesOn(w, n, instructions, states[n], states[n + 1])
  }

  /** The states before each turn; `last` is the state the run ends in. */
  ghost predicate RunTrace(
      w: World, instructions: seq<string>, states: seq<LoopState>, last: LoopState, end: AgentEnd) {
    && LoopSteps(w, instructions, states)
    && if end == MaxTurns then |states| == w.maxTurns + 1 && last == states[w.maxTurns]
       else |states| <= w.maxTurns && EndsIn(w, |states| - 1, instructions, states[|states| - 1], last, end)
  }

  // ---------------------------------------------------------------- the transcript invariant

  lemma HandledContinues(w: World, turn: nat, reply: ModelReply, a: LoopState, b: LoopState, h: Handled)
    requires !reply.Fails? && Handles(w, turn, reply, a, b, h)
    ensures b.messages == a.messages
    ensures h.Continue? ==> reply.Responds? && Continues(a.messages, reply.blocks, h.messages)
  {
    if h.Continue? && Uses(reply.blocks) != [] {
      var uses := Uses(reply.blocks);
      TurnAnswers(w, uses, M.ObserveAll(a.journal, Identities(uses)), w.tools(turn));
    }
  }

  lemma GoesOnFollows(w: World, turn: nat, instructions: seq<string>, a: LoopState, b: LoopState)
    requires GoesOn(w, turn, instructions, a, b)
    ensures Follows(instructions, a.messages, w.model(turn), b.messages)
  {
    var b', end :| b' == b.(messages := a.messages) && TurnStep(w, turn, instructions, a, b', Some(b.messages), end);
    var reply := w.model(turn);
    if !reply.Fails? {
      var mid, h :| Handles(w, turn + 1, reply, a, mid, h)
                    && Concludes(w, turn, instructions, mid, h, b', Some(b.messages), end);
      HandledContinues(w, turn + 1, reply, a, mid, h);
    }
  }

  /** The dialogues sent to the model. */
  function Sent(states: seq<LoopState>): seq<seq<Message>> {
    seq(|states|, i requires 0 <= i < |states| => states[i].messages)
  }

  lemma TraceIsChain(w: World, messages: seq<Message>, states: seq<LoopState>)
    requires LoopSteps(w, Captured(messages), states) && Opening(messages, states[0].messages)
    ensures Chain(w, messages, Sent(states))
  {
    forall n | 0 <= n < |states| - 1
      ensures Follows(Captured(messages), Sent(states)[n], w.model(n), Sent(states)[n + 1])
    {
      GoesOnFollows(w, n, Captured(messages), states[n], states[n + 1]);
    }
  }

  /** Every model call of a run that starts well sees a well-formed dialogue, as long as the replies
      before it brought new ids and no tool_result. */
  lemma EveryCallSeesADialogue(w: World, messages: seq<Message>, states: seq<LoopState>, n: nat)
    requires LoopSteps(w, Captured(messages), states) && Opening(messages, states[0].messages) && GoodStart(messages)
    requires n < |states| && FreshReplies(w, Sent(states), n)
    ensures Accepted(states[n].messages)
  {
    TraceIsChain(w, messages, states);
    EveryCallAccepted(w, messages, Sent(states), n);
  }

  // ---------------------------------------------------------------- diminishing returns

  lemma ResetEndsRun(history: seq<Event>)
    ensures !Diminishing(history + [Reset])
  {
    var longer := history + [Reset];
    forall n | n >= MAX_LOW_GAIN_STREAK
      ensures !TrailingRun(longer, n)
    {
      assert !LowGain(longer, |history|);
    }
  }

  lemma HandledHistory(w: World, turn: nat, reply: ModelReply, a: LoopState, b: LoopState, h: Handled)
    requires !reply.Fails? && Handles(w, turn, reply, a, b, h) && !Diminishing(a.history)
    ensures h == Stop(DiminishingReturns) <==> Diminishing(b.history)
    ensures b.history == a.history || exists e :: b.history == a.history + [e]
  {
    ResetEndsRun(a.history);
  }

  lemma CaughtHistory(w: World, instructions: seq<string>, error: string, a: LoopState, b: LoopState,
                      next: Option<seq<Message>>, end: AgentEnd)
    requires Caught(w, instructions, error, a, b, next, end) && !Diminishing(a.history)
    ensures !Diminishing(b.history) && (next.None? ==> end == ErrorEvent)
  {
    ResetEndsRun(a.history);
  }

  /** A turn ends the run for diminishing returns exactly when it makes the trailing run of low-gain
      turns two long. */
  lemma TurnDiminishes(w: World, turn: nat, instructions: seq<string>, a: LoopState, b: LoopState,
                       next: Option<seq<Message>>, end: AgentEnd)
    requires TurnStep(w, turn, instructions, a, b, next, end) && !Diminishing(a.history)
    ensures (next.None? && end == DiminishingReturns) <==> Diminishing(b.history)
    ensures Diminishing(b.history) ==> TrailingRun(b.history, MAX_LOW_GAIN_STREAK)
  {
    match w.model(turn) {
      case Fails(error) => CaughtHistory(w, instructions, error, a, b, next, end);
      case reply =>
        var mid, h :| Handles(w, turn + 1, reply, a, mid, h)
                      && Concludes(w, turn, instructions, mid, h, b, next, end);
        HandledHistory(w, turn + 1, reply, a, mid, h);
        if h.Throw? { CaughtHistory(w, instructions, w.thrown(turn), mid, b, next, end); }
        if Diminishing(b.history) { ExactlyTwo(a.history, b.history); }
    }
  }

  lemma ShortRun(history: seq<Event>) returns (n: nat)
    requires !Diminishing(history)
    ensures n < MAX_LOW_GAIN_STREAK && TrailingRun(history, n)
  {
    n := LongestRun(history);
  }

  lemma LongestRun(history: seq<Event>) returns (n: nat)
    ensures TrailingRun(history, n)
    decreases |history|
  {
    if history == [] {
      n := 0;
    } else {
      var front := history[..|history| - 1];
      var k := LongestRun(front);
      assert front + [history[|history| - 1]] == history;
      TrailingRunGrows(front, k, history[|history| - 1]);
      n := if LowGain(history, |front|) then k + 1 else 0;
    }
  }

  lemma ExactlyTwo(before: seq<Event>, after: seq<Event>)
    requires !Diminishing(before) && Diminishing(after) && exists e :: after == before + [e]
    ensures TrailingRun(after, MAX_LOW_GAIN_STREAK)
  {
    var e :| after == before + [e];
    var k := ShortRun(before);
    var n :| n >= MAX_LOW_GAIN_STREAK && TrailingRun(after, n);
    TrailingRunGrows(before, k, e);
    TrailingRunUnique(after, n, if LowGain(after, |before|) then k + 1 else 0);
  }

  /** A run never goes on past two low-gain turns in a row, and ends for diminishing returns exactly
      when its last turn is the second of them. */
  lemma {:induction false} StopsInTime(
      w: World, instructions: seq<string>, states: seq<LoopState>, last: LoopState, end: AgentEnd)
    requires RunTrace(w, instructions, states, last, end) && states[0].history == []
    ensures forall n :: 0 <= n < |states| ==> !Diminishing(states[n].history)
    ensures end == DiminishingReturns <==> Diminishing(last.history)
    ensures end == DiminishingReturns ==> TrailingRun(last.history, MAX_LOW_GAIN_STREAK)
  {
    forall n: nat | n < |states|
      ensures !Diminishing(states[n].history)
    {
      NeverDiminishing(w, instructions, states, n);
    }
    if end != MaxTurns { TurnDiminishes(w, |states| - 1, instructions, states[|states| - 1], last, None, end); }
  }

  lemma {:induction false} NeverDiminishing(w: World, instructions: seq<string>, states: seq<LoopState>, n: nat)
    requires LoopSteps(w, instructions, states) && states[0].history == [] && n < |states|
    ensures !Diminishing(states[n].history)
  {
    if n > 0 {
      NeverDiminishing(w, instructions, states, n - 1);
      GoingOnKeeps(w, n - 1, instructions, states[n - 1], states[n]);
    } else {
      NothingDiminishes([]);
    }
  }

  lemma NothingDiminishes(history: seq<Event>)
    requires history == []
    ensures !Diminishing(history)
  {
  }

  lemma GoingOnKeeps(w: World, turn: nat, instructions: seq<string>, a: LoopState, b: LoopState)
    requires GoesOn(w, turn, instructions, a, b) && !Diminishing(a.history)
    ensures !Diminishing(b.history)
  {
    var c := b.(messages := a.messages);
    var end :| TurnStep(w, turn, instructions, a, c, Some(b.messages), end);
    TurnDiminishes(w, turn, instructions, a, c, Some(b.messages), end);
  }

  // ---------------------------------------------------------------- bounded recovery

  predicate WithinBudget(a: LoopState) {
    a.overflows <= MAX_OVERFLOW_RETRIES && a.truncations <= MAX_TRUNCATION_RETRIES
  }

  lemma HandledBudget(w: World, turn: nat, reply: ModelReply, a: LoopState, b: LoopState, h: Handled)
    requires !reply.Fails? && Handles(w, turn, reply, a, b, h) && WithinBudget(a)
    ensures WithinBudget(b)
  {
  }

  lemma CaughtBudget(w: World, instructions: seq<string>, error: string, a: LoopState, b: LoopState,
                     next: Option<seq<Message>>, end: AgentEnd)
    requires Caught(w, instructions, error, a, b, next, end) && WithinBudget(a)
    ensures WithinBudget(b)
  {
  }

  lemma TurnKeepsBudget(w: World, turn: nat, instructions: seq<string>, a: LoopState, b: LoopState,
                        next: Option<seq<Message>>, end: AgentEnd)
    requires TurnStep(w, turn, instructions, a, b, next, end) && WithinBudget(a)
    ensures WithinBudget(b)
  {
    match w.model(turn) {
      case Fails(error) => CaughtBudget(w, instructions, error, a, b, next, end);
      case reply =>
        var mid, h :| Handles(w, turn + 1, reply, a, mid, h)
                      && Concludes(w, turn, instructions, mid, h, b, next, end);
        HandledBudget(w, turn + 1, reply, a, mid, h);
        if h.Throw? { CaughtBudget(w, instructions, w.thrown(turn), mid, b, next, end); }
    }
  }

  /** At most one overflow and one truncation are recovered from in a run. */
  lemma {:induction false} RecoversOnce(w: World, instructions: seq<string>, states: seq<LoopState>, n: nat)
    requires LoopSteps(w, instructions, states) && n < |states|
    requires states[0].overflows == 0 && states[0].truncations == 0
    ensures states[n].overflows <= MAX_OVERFLOW_RETRIES && states[n].truncations <= MAX_TRUNCATION_RETRIES
  {
    if n > 0 {
      RecoversOnce(w, instructions, states, n - 1);
      assert GoesOn(w, n - 1, instructions, states[n - 1], states[n]);
      var b := states[n].(messages := states[n - 1].messages);
      var end :| TurnStep(w, n - 1, instructions, states[n - 1], b, Some(states[n].messages), end);
      TurnKeepsBudget(w, n - 1, instructions, states[n - 1], b, Some(states[n].messages), end);
    }
  }

  // ---------------------------------------------------------------- the program

  /** A run of the loop whose first model call sees `first`, on a fresh recovery budget. */
  ghost predicate RanFrom(w: World, messages: seq<Message>, first: seq<Message>, states: seq<LoopState>,
                          last: LoopState, end: AgentEnd) {
    && RunTrace(w, Captured(messages), states, last, end)
    && states[0] == LoopState(first, states[0].journal, [], 0, 0)
  }

  /** runImpl: the recovery pass, then the loop over turns. */
  method RunImpl(w: World, messages: seq<Message>, m: M.RunManifest)
    returns (end: AgentEnd, ghost entry: Option<Handled>, ghost states: seq<LoopState>, ghost last: LoopState)
    requires m.Valid()
    modifies m
    ensures ManifestOk(m)
    ensures Entered(w, messages, old(m.present), old(m.journal),
                    if states == [] then m.journal else states[0].journal, entry)
    ensures match entry
            case Some(Throw) => end == Thrown && states == []
            case Some(Stop(e)) => end == e && states == []
            case Some(Continue(first)) => RanFrom(w, messages, first, states, last, end)
            case None => RanFrom(w, messages, messages, states, last, end)
    ensures states != [] && DistinctIds(PendingUses(messages)) ==> Opening(messages, states[0].messages)
    ensures states != [] ==> last.journal == m.journal
  {
    var current := messages;
    ghost var present, j := m.present, m.journal;
    var recovery := Enter(w, messages, m);
    if DistinctIds(PendingUses(messages)) { EnteredOpens(w, messages, present, j, m.journal, recovery); }
    entry, states, last := recovery, [], LoopState(messages, m.journal, [], 0, 0);
    if recovery.Some? {
      match recovery.value {
        case Throw => return Thrown, entry, states, last;
        case Stop(e) => return e, entry, states, last;
        case Continue(next) => current := next;
      }
    }
    end, states, last := RunTurns(w, current, Captured(messages), m);
  }

  /** The for loop over turns. */
  method RunTurns(w: World, first: seq<Message>, instructions: seq<string>, m: M.RunManifest)
    returns (end: AgentEnd, ghost states: seq<LoopState>, ghost last: LoopState)
    requires ManifestOk(m)
    modifies m
    ensures ManifestOk(m)
    ensures RunTrace(w, instructions, states, last, end) && last.journal == m.journal
    ensures states[0] == LoopState(first, old(m.journal), [], 0, 0)
  {
    var s := new AgentRuntimeState();
    var current := first;
    states := [StateOf(current, m, s)];
    for turn := 0 to w.maxTurns
      invariant ManifestOk(m) && s.Valid() && fresh(s)
      invariant |states| == turn + 1 && LoopSteps(w, instructions, states) && states[turn] == StateOf(current, m, s)
      invariant states[0] == LoopState(first, old(m.journal), [], 0, 0)
    {
      var next;
      next, end := RunTurn(w, turn, current, instructions, m, s);
      last := StateOf(current, m, s);
      if next.None? {
        NeverMaxTurns(w, turn, instructions, states[turn], last, end);
        return;
      }
      StepsGrow(w, instructions, states, last, next.value, end);
      current := next.value;
      states := states + [StateOf(current, m, s)];
    }
    return MaxTurns, states, StateOf(current, m, s);
  }

  lemma StepsGrow(
      w: World, instructions: seq<string>, states: seq<LoopState>, b: LoopState, next: seq<Message>, end: AgentEnd)
    requires LoopSteps(w, instructions, states) && b.messages == states[|states| - 1].messages
    requires TurnStep(w, |states| - 1, instructions, states[|states| - 1], b, Some(next), end)
    ensures LoopSteps(w, instructions, states + [b.(messages := next)])
  {
    var a, c := states[|states| - 1], b.(messages := next);
    assert c.(messages := a.messages) == b;
    assert GoesOn(w, |states| - 1, instructions, a, c);
    OneMoreState(w, instructions, states, c);
  }

  ghost predicate Along<S>(step: (nat, S, S) -> bool, states: seq<S>) {
    forall n: nat :: n < |states| - 1 ==> step(n, states[n], states[n + 1])
  }

  lemma AlongGrows<S>(step: (nat, S, S) -> bool, states: seq<S>, last: S)
    requires states != [] && Along(step, states) && step(|states| - 1, states[|states| - 1], last)
    ensures Along(step, states + [last])
  {
  }

  lemma OneMoreState(w: World, instructions: seq<string>, states: seq<LoopState>, c: LoopState)
    requires LoopSteps(w, instructions, states) && GoesOn(w, |states| - 1, instructions, states[|states| - 1], c)
    ensures LoopSteps(w, instructions, states + [c])
  {
    var step := (n: nat, a: LoopState, b: LoopState) => GoesOn(w, n, instructions, a, b);
    AlongGrows(step, states, c);
    var more := states + [c];
    assert Along(step, more);
    forall n: nat | n < |more| - 1
      ensures GoesOn(w, n, instructions, more[n], more[n + 1])
    {
      assert step(n, more[n], more[n + 1]);
    }
  }

  lemma NeverMaxTurns(w: World, turn: nat, instructions: seq<string>, a: LoopState, b: LoopState, end: AgentEnd)
    requires EndsIn(w, turn, instructions, a, b, end)
    ensures end != MaxTurns
  {
  }
}
