/** runImpl and the functions it calls, against the manifest and the recovery budget. */
module AgentRunner {
  import opened Common
  import M = Manifest
  import P = ToolProtocol
  import D = ToolDispatch
  import opened ToolGroups
  import opened Transcript
  import opened Compaction
  import opened RuntimeState
  import opened AgentLoop

  ghost predicate ManifestOk(m: M.RunManifest)
    reads m
  {
    m.Valid() && m.present
  }

  /** What a run carries from one turn to the next. */
  datatype LoopState = LoopState(
    messages: seq<Message>,
    journal: M.Journal,
    history: seq<Event>,
    overflows: nat,
    truncations: nat)

  ghost function StateOf(messages: seq<Message>, m: M.RunManifest, s: AgentRuntimeState): LoopState
    reads m, s
  {
    LoopState(messages, m.journal, s.history, s.overflowRetryCount, s.truncationRetryCount)
  }

  // ---------------------------------------------------------------- preparing a turn

  method TargetsOk(uses: seq<ToolUse>, w: World) returns (ok: bool)
    ensures ok <==> forall u :: u in uses ==> w.targetOk(u)
  {
    for k := 0 to |uses|
      invariant forall i :: 0 <= i < k ==> w.targetOk(uses[i])
    {
      if !w.targetOk(uses[k]) { return false; }
    }
    ok := true;
  }

  /** Every use is permitted and aims at the delegated run. */
  predicate Authorizes(w: World, uses: seq<ToolUse>) {
    forall u :: u in uses ==> Permitted(u, w.policy) && w.targetOk(u)
  }

  lemma AuthorizedNamed(w: World, uses: seq<ToolUse>)
    requires Authorizes(w, uses)
    ensures M.AllNamed(Identities(uses))
  {
    forall a | a in Identities(uses)
      ensures M.Named(a)
    {
      var i :| 0 <= i < |uses| && Identities(uses)[i] == a;
      assert uses[i] in uses;
    }
  }

  /** Authorize the entire turn and form its attempts; nothing is persisted or called. */
  method Prepare(w: World, uses: seq<ToolUse>) returns (r: Result<P.Turn>)
    ensures r.Ok? <==> Authorizes(w, uses)
    ensures r.Ok? ==> r.value == TurnOf(w, uses) && P.Attempts(r.value) == Identities(uses)
  {
    var groups := GroupToolUsesForExecution(uses, w.policy);
    if groups.Err? { return Err(groups.message); }
    var ok := TargetsOk(uses, w);
    if !ok { return Err("Approval-producing tool must target the delegated run."); }
    TurnAttempts(w, uses);
    return Ok(P.Turn(IdentityGroups(groups.value), w.approvalRun));
  }

  /** The turn can be put on file. */
  predicate CanObserve(w: World, uses: seq<ToolUse>, j: M.Journal) {
    Authorizes(w, uses) && DistinctIds(uses) && M.AllMatch(j, Identities(uses))
  }

  /** prepareToolUses with observe: the intents are on file before anything is dispatched. */
  method PrepareAndObserve(w: World, uses: seq<ToolUse>, m: M.RunManifest) returns (r: Result<P.Turn>)
    requires ManifestOk(m)
    modifies m
    ensures ManifestOk(m)
    ensures r.Ok? <==> CanObserve(w, uses, old(m.journal))
    ensures r.Ok? ==> r.value == TurnOf(w, uses) && P.Attempts(r.value) == Identities(uses)
    ensures m.journal == if r.Ok? then M.ObserveAll(old(m.journal), Identities(uses)) else old(m.journal)
  {
    r := Prepare(w, uses);
    if r.Err? { return; }
    TurnAttempts(w, uses);
    AuthorizedNamed(w, uses);
    var ok := m.ObserveToolIntents(Identities(uses));
    if !ok { return Err("The turn conflicts with the run manifest."); }
  }

  /** Classification throws when a stored identity disagrees with the attempt. */
  method AllClassified(attempts: seq<M.Identity>, m: M.RunManifest) returns (ok: bool)
    requires m.Valid()
    ensures ok <==> M.AllMatch(m.journal, attempts)
  {
    for k := 0 to |attempts|
      invariant forall i :: 0 <= i < k ==> M.Matches(m.journal, attempts[i])
    {
      var c := m.ClassifyToolAttempt(attempts[k]);
      if c.None? { return false; }
    }
    ok := true;
  }

  /** The journal after a pass over the turn. */
  ghost predicate Executed(t: P.Turn, j: M.Journal, tools: string -> M.Reply, after: M.Journal) {
    var called := if P.UnsafeTurn(t, j) then [] else D.CalledBy(t, t.groups, {}, D.ClassesOf(t, j), tools);
    D.JournalAfter(t, j, called, tools, after)
  }

  /** Run the batches of an observed turn. */
  method Execute(t: P.Turn, m: M.RunManifest, tools: string -> M.Reply) returns (end: D.TurnEnd)
    requires ManifestOk(m) && M.AllMatch(m.journal, P.Attempts(t))
    modifies m
    ensures ManifestOk(m)
    ensures end == D.TurnOutcome(t, old(m.journal), tools)
    ensures Executed(t, old(m.journal), tools, m.journal)
  {
    var called;
    end, called := D.ExecutePreparedToolUseGroups(t, m, tools);
  }

  // ---------------------------------------------------------------- handling a reply

  function CallText(u: ToolUse): string { u.name + ":" + u.input }

  function OutcomeText(u: ToolUse, r: M.ToolResult, hash: string -> string): string {
    CallText(u) + (if r.isError then ":err:" else ":ok:") + hash(r.rawText)
  }

  function CallSignature(uses: seq<ToolUse>): string {
    Join(seq(|uses|, i requires 0 <= i < |uses| => CallText(uses[i])), "|")
  }

  function OutcomeSignature(uses: seq<ToolUse>, results: seq<(string, M.ToolResult)>, hash: string -> string): string
    requires |uses| == |results|
  {
    Join(seq(|uses|, i requires 0 <= i < |uses| => OutcomeText(uses[i], results[i].1, hash)), "|")
  }

  function ErrorCount(results: seq<(string, M.ToolResult)>): nat {
    if results == [] then 0 else (if results[0].1.isError then 1 else 0) + ErrorCount(results[1..])
  }

  /** What the tracking records of a completed tool turn. */
  function TurnEvent(w: World, uses: seq<ToolUse>, results: seq<(string, M.ToolResult)>): Event {
    ToolTurn(if |uses| == |results| then OutcomeSignature(uses, results, w.hash) else "",
             |results|, ErrorCount(results))
  }

  /** The history ends with two or more low-gain turns. */
  ghost predicate Diminishing(history: seq<Event>) {
    exists n :: n >= MAX_LOW_GAIN_STREAK && TrailingRun(history, n)
  }

  /** How a reply that calls tools is handled, and what it leaves behind. */
  ghost predicate ToolTurnHandled(w: World, turn: nat, blocks: seq<Block>, a: LoopState, b: LoopState, h: Handled) {
    var uses := Uses(blocks);
    if !CanObserve(w, uses, a.journal) then h == Throw && b == a
    else
      var t, j := TurnOf(w, uses), M.ObserveAll(a.journal, Identities(uses));
      && Executed(t, j, w.tools(turn), b.journal)
      && match D.TurnOutcome(t, j, w.tools(turn))
         case Error => h == Throw && b == a.(journal := b.journal)
         case OutcomeIsUnknown => h == Stop(ToolOutcomeUnknown) && b == a.(journal := b.journal)
         case NeedsApproval => h == Stop(ApprovalRequired) && b == a.(journal := b.journal)
         case Completed(results) =>
           && b == a.(journal := b.journal, history := a.history + [TurnEvent(w, uses, results)])
           && h == if Diminishing(b.history) then Stop(DiminishingReturns)
                   else Continue(a.messages + [Message(Assistant, Blocks(blocks)), ResultMessage(results)])
  }

  /** How any reply is handled. */
  ghost predicate Handles(w: World, turn: nat, reply: ModelReply, a: LoopState, b: LoopState, h: Handled)
    requires !reply.Fails?
  {
    if reply.Garbled? || reply.stop.UnknownStop? then h == Throw && b == a
    else HandlesContent(w, turn, reply.blocks, reply.stop, a, b, h)
  }

  ghost predicate HandlesContent(
      w: World, turn: nat, blocks: seq<Block>, stop: StopKind, a: LoopState, b: LoopState, h: Handled) {
    if Uses(blocks) != [] then
      if stop.Truncation? then h == Throw && b == a else ToolTurnHandled(w, turn, blocks, a, b, h)
    else
      match stop
      case ToolUseStop => h == Throw && b == a
      case Truncation =>
        if a.truncations >= MAX_TRUNCATION_RETRIES || blocks == [] then
          h == Throw && b == a.(history := a.history + [Reset])
        else && h == Continue(a.messages + TruncationTurn(blocks))
             && b == a.(history := a.history + [Reset], truncations := a.truncations + 1)
      case _ => h == Stop(Done) && b == a
  }

  lemma StreakDecides(history: seq<Event>, streak: nat)
    requires TrailingRun(history, streak)
    ensures Diminishing(history) <==> streak >= MAX_LOW_GAIN_STREAK
  {
    if n :| n >= MAX_LOW_GAIN_STREAK && TrailingRun(history, n) { TrailingRunUnique(history, n, streak); }
  }

  /** The branch of handleAssistantResponse for a reply that calls tools. */
  method HandleToolTurn(
      w: World, turn: nat, blocks: seq<Block>, messages: seq<Message>, m: M.RunManifest, s: AgentRuntimeState)
    returns (h: Handled)
    requires ManifestOk(m) && s.Valid() && Uses(blocks) != []
    modifies m, s`lowGainStreak, s`lastToolCallSignature, s`lastToolOutcomeSignature, s`history
    ensures ManifestOk(m) && s.Valid()
    ensures ToolTurnHandled(w, turn, blocks, old(StateOf(messages, m, s)), StateOf(messages, m, s), h)
  {
    ghost var j0 := m.journal;
    var uses := ToolUses(blocks);
    var prepared := PrepareAndObserve(w, uses, m);
    if prepared.Err? { return Throw; }
    var t := prepared.value;
    TurnAttempts(w, uses);
    P.ObservedMatch(j0, Identities(uses));
    var end := Execute(t, m, w.tools(turn));
    match end {
      case OutcomeIsUnknown => return Stop(ToolOutcomeUnknown);
      case NeedsApproval => return Stop(ApprovalRequired);
      case Error => return Throw;
      case Completed(results) =>
        CompletedInOrder(t, t.groups, {}, D.ClassesOf(t, M.ObserveAll(j0, Identities(uses))), w.tools(turn));
        var markers, shouldStop := s.EvaluateLowGainTurn(
          CallSignature(uses), OutcomeSignature(uses, results, w.hash), |results|, ErrorCount(results));
        StreakDecides(s.history, s.lowGainStreak);
        if shouldStop { return Stop(DiminishingReturns); }
        return Continue(messages + [Message(Assistant, Blocks(blocks)), ResultMessage(results)]);
    }
  }

  /** handleAssistantResponse. */
  method HandleAssistantResponse(
      w: World, turn: nat, reply: ModelReply, messages: seq<Message>, m: M.RunManifest, s: AgentRuntimeState)
    returns (h: Handled)
    requires ManifestOk(m) && s.Valid() && !reply.Fails?
    modifies m, s
    ensures ManifestOk(m) && s.Valid()
    ensures Handles(w, turn, reply, old(StateOf(messages, m, s)), StateOf(messages, m, s), h)
  {
    if reply.Garbled? { return Throw; }
    var blocks, stop := reply.blocks, reply.stop;
    var uses := ToolUses(blocks);
    if stop.UnknownStop? { return Throw; }
    if uses != [] {
      if stop.Truncation? { return Throw; }
      h := HandleToolTurn(w, turn, blocks, messages, m, s);
      return;
    }
    if stop.ToolUseStop? { return Throw; }
    if stop.Truncation? {
      s.ResetLowGainTracking();
      var recovery := s.BuildTruncationRecovery(messages, blocks);
      if recovery.Err? || recovery.value.None? { return Throw; }
      return Continue(recovery.value.value);
    }
    return Stop(Done);
  }

  // ---------------------------------------------------------------- recovery of a trailing turn

  /** How the calls the transcript ends with are settled before the first model call. */
  ghost predicate Resolved(w: World, messages: seq<Message>, j: M.Journal, after: M.Journal, h: Option<Handled>) {
    var uses := PendingUses(messages);
    if uses == [] then h == None && after == j
    else if !Authorizes(w, uses) || !M.AllMatch(j, Identities(uses)) then h == Some(Throw) && after == j
    else
      && Executed(TurnOf(w, uses), j, w.tools(0), after)
      && match D.TurnOutcome(TurnOf(w, uses), j, w.tools(0))
         case Error => h == Some(Throw)
         case OutcomeIsUnknown => h == Some(Stop(ToolOutcomeUnknown))
         case NeedsApproval => h == Some(Stop(ApprovalRequired))
         case Completed(results) => h == Some(Continue(messages + [ResultMessage(results)]))
  }

  /** resolveIncompleteToolUses. */
  method ResolveIncompleteToolUses(w: World, messages: seq<Message>, m: M.RunManifest) returns (h: Option<Handled>)
    requires ManifestOk(m)
    modifies m
    ensures ManifestOk(m)
    ensures Resolved(w, messages, old(m.journal), m.journal, h)
  {
    var pending := PendingUses(messages);
    if pending == [] { return None; }
    var prepared := Prepare(w, pending);
    if prepared.Err? { return Some(Throw); }
    var t := prepared.value;
    TurnAttempts(w, pending);
    var known := AllClassified(Identities(pending), m);
    if !known { return Some(Throw); }
    var end := Execute(t, m, w.tools(0));
    match end {
      case OutcomeIsUnknown => return Some(Stop(ToolOutcomeUnknown));
      case NeedsApproval => return Some(Stop(ApprovalRequired));
      case Error => return Some(Throw);
      case Completed(results) => return Some(Continue(messages + [ResultMessage(results)]));
    }
  }

  /** Before the loop: without a manifest, the calls the transcript ends with are put on file first. */
  ghost predicate Entered(
      w: World, messages: seq<Message>, present: bool, j: M.Journal, after: M.Journal, h: Option<Handled>) {
    var ids := Identities(PendingUses(messages));
    if present || ids == [] then Resolved(w, messages, j, after, h)
    else if !M.AllNamed(ids) || !DistinctIds(PendingUses(messages)) || !M.AllMatch(j, ids) then
      h == Some(Throw) && after == j
    else Resolved(w, messages, M.ObserveAll(j, ids), after, h)
  }

  method Enter(w: World, messages: seq<Message>, m: M.RunManifest) returns (h: Option<Handled>)
    requires m.Valid()
    modifies m
    ensures ManifestOk(m)
    ensures Entered(w, messages, old(m.present), old(m.journal), m.journal, h)
  {
    var existing := m.present;
    m.EnsureManifest();
    var pending := PendingUses(messages);
    if !existing && pending != [] {
      TurnAttempts(w, pending);
      var ok := m.ObserveToolIntents(Identities(pending));
      if !ok { return Some(Throw); }
    }
    h := ResolveIncompleteToolUses(w, messages, m);
  }

  lemma EnteredOpens(
      w: World, messages: seq<Message>, present: bool, j: M.Journal, after: M.Journal, h: Option<Handled>)
    requires Entered(w, messages, present, j, after, h) && DistinctIds(PendingUses(messages))
    ensures h.None? ==> Opening(messages, messages)
    ensures h.Some? && h.value.Continue? ==> Opening(messages, h.value.messages)
    ensures h.Some? && h.value.Stop? ==> h.value.end == ApprovalRequired || h.value.end == ToolOutcomeUnknown
  {
    var uses := PendingUses(messages);
    if h.Some? && h.value.Continue? {
      var before := if present then j else M.ObserveAll(j, Identities(uses));
      TurnAnswers(w, uses, before, w.tools(0));
    }
  }

  // ---------------------------------------------------------------- one turn of the loop

  /** The catch clause. */
  ghost predicate Caught(w: World, instructions: seq<string>, error: string, a: LoopState, b: LoopState,
                         next: Option<seq<Message>>, end: AgentEnd) {
    if w.overflow(error) && a.overflows < MAX_OVERFLOW_RETRIES && Accepted(a.messages)
       && !NothingToCompact(a.messages, instructions) then
      && next.Some? && CompactsTo(a.messages, instructions, next.value)
      && b == a.(overflows := a.overflows + 1, history := a.history + [Reset])
    else next.None? && end == ErrorEvent && b == a
  }

  /** One iteration: the model call, the handling of its reply, and the catch clause.  b keeps the
      messages of a; `next` holds those of the next turn. */
  ghost predicate TurnStep(w: World, turn: nat, instructions: seq<string>, a: LoopState, b: LoopState,
                           next: Option<seq<Message>>, end: AgentEnd) {
    match w.model(turn)
    case Fails(error) => Caught(w, instructions, error, a, b, next, end)
    case reply => exists mid, h ::
      Handles(w, turn + 1, reply, a, mid, h) && Concludes(w, turn, instructions, mid, h, b, next, end)
  }

  ghost predicate Concludes(w: World, turn: nat, instructions: seq<string>, mid: LoopState, h: Handled, b: LoopState,
                            next: Option<seq<Message>>, end: AgentEnd) {
    match h
    case Continue(messages) => next == Some(messages) && b == mid
    case Stop(e) => next.None? && end == e && b == mid
    case Throw => Caught(w, instructions, w.thrown(turn), mid, b, next, end)
  }

  method RunTurn(w: World, turn: nat, messages: seq<Message>, instructions: seq<string>,
                 m: M.RunManifest, s: AgentRuntimeState)
    returns (next: Option<seq<Message>>, end: AgentEnd)
    requires ManifestOk(m) && s.Valid()
    modifies m, s
    ensures ManifestOk(m) && s.Valid()
    ensures TurnStep(w, turn, instructions, old(StateOf(messages, m, s)), StateOf(messages, m, s), next, end)
  {
    var reply := w.model(turn);
    end := ErrorEvent;
    if reply.Fails? {
      next := Catch(w, reply.error, messages, instructions, m, s);
      return;
    }
    ghost var a := StateOf(messages, m, s);
    var h := HandleAssistantResponse(w, turn + 1, reply, messages, m, s);
    ghost var mid := StateOf(messages, m, s);
    match h {
      case Continue(ms) => next := Some(ms);
      case Stop(e) => next, end := None, e;
      case Throw => next := Catch(w, w.thrown(turn), messages, instructions, m, s);
    }
    assert Handles(w, turn + 1, reply, a, mid, h)
        && Concludes(w, turn, instructions, mid, h, StateOf(messages, m, s), next, end);
  }

  method Catch(w: World, error: string, messages: seq<Message>, instructions: seq<string>,
               m: M.RunManifest, s: AgentRuntimeState)
    returns (next: Option<seq<Message>>)
    requires s.Valid()
    modifies s
    ensures s.Valid()
    ensures Caught(w, instructions, error, old(StateOf(messages, m, s)), StateOf(messages, m, s), next, ErrorEvent)
  {
    var compacted := s.RecoverFromContextOverflow(w.overflow(error), messages, instructions);
    if compacted.None? { return None; }
    s.ResetLowGainTracking();
    return Some(compacted.value.messages);
  }
}
