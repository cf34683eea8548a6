/** How often a run of the agent calls a tool use: the journal accounts for every call, across the
    turns of a run and its recovery pass, also when turns reuse ids. */
module AgentCalls {
  import opened Common
  import M = Manifest
  import P = ToolProtocol
  import D = ToolDispatch
  import opened ToolGroups
  import opened Transcript
  import opened AgentLoop
  import opened AgentRunner
  import opened AgentRun

  /** The calls of a step that the journal knows of. */
  function Credit(j: M.Journal, x: string): nat {
    M.Boundaries(j, x) + if M.Dispatched(j, x) then 1 else 0
  }

  function Count(called: seq<string>, x: string): nat { multiset(called)[x] }

  // ---------------------------------------------------------------- one pass

  /** The calls of a pass over a turn that starts from journal j. */
  function PassCalls(t: P.Turn, j: M.Journal, tools: string -> M.Reply): seq<string> {
    if P.UnsafeTurn(t, j) then [] else D.CalledBy(t, t.groups, {}, D.ClassesOf(t, j), tools)
  }

  lemma {:induction false} CountOnce(xs: seq<string>, x: string)
    requires D.AllDifferent(xs)
    ensures Count(xs, x) == if x in xs then 1 else 0
  {
    if xs != [] {
      assert xs == [xs[0]] + xs[1..];
      assert forall i :: 0 < i < |xs| ==> xs[0] != xs[i];
      CountOnce(xs[1..], x);
    }
  }

  lemma PassCredit(t: P.Turn, j: M.Journal, tools: string -> M.Reply, after: M.Journal, x: string)
    requires Executed(t, j, tools, after)
    ensures Credit(after, x) == Credit(j, x) + Count(PassCalls(t, j, tools), x)
  {
    var called := PassCalls(t, j, tools);
    if !P.UnsafeTurn(t, j) { D.CalledWereNotStarted(t, t.groups, {}, D.ClassesOf(t, j), tools); }
    CountOnce(called, x);
    if x in called { assert M.ClassOf(j, x) == M.Open(M.NotStarted); }
  }

  lemma ObserveCredit(j: M.Journal, attempts: seq<M.Identity>, x: string)
    ensures Credit(M.ObserveAll(j, attempts), x) == Credit(j, x)
  {
    M.ObserveAllEntries(j, attempts);
  }

  // ---------------------------------------------------------------- one turn

  /** The calls of a turn of the loop that starts from journal j. */
  function TurnCalls(w: World, turn: nat, j: M.Journal): seq<string> {
    match w.model(turn)
    case Responds(blocks, stop) =>
      var uses := Uses(blocks);
      if stop.UnknownStop? || stop.Truncation? || uses == [] || !CanObserve(w, uses, j) then []
      else PassCalls(TurnOf(w, uses), M.ObserveAll(j, Identities(uses)), w.tools(turn + 1))
    case _ => []
  }

  lemma HandledCredit(w: World, turn: nat, a: LoopState, b: LoopState, h: Handled, x: string)
    requires !w.model(turn).Fails? && Handles(w, turn + 1, w.model(turn), a, b, h)
    ensures Credit(b.journal, x) == Credit(a.journal, x) + Count(TurnCalls(w, turn, a.journal), x)
  {
    var reply := w.model(turn);
    if reply.Responds? {
      var uses := Uses(reply.blocks);
      if !reply.stop.UnknownStop? && !reply.stop.Truncation? && uses != [] && CanObserve(w, uses, a.journal) {
        ObserveCredit(a.journal, Identities(uses), x);
        PassCredit(TurnOf(w, uses), M.ObserveAll(a.journal, Identities(uses)), w.tools(turn + 1), b.journal, x);
      }
    }
  }

  lemma CaughtJournal(w: World, instructions: seq<string>, error: string, a: LoopState, b: LoopState,
                      next: Option<seq<Message>>, end: AgentEnd)
    requires Caught(w, instructions, error, a, b, next, end)
    ensures b.journal == a.journal
  {
  }

  lemma ConcludedJournal(w: World, turn: nat, instructions: seq<string>, mid: LoopState, h: Handled, b: LoopState,
                         next: Option<seq<Message>>, end: AgentEnd)
    requires Concludes(w, turn, instructions, mid, h, b, next, end)
    ensures b.journal == mid.journal
  {
    if h.Throw? { CaughtJournal(w, instructions, w.thrown(turn), mid, b, next, end); }
  }

  /** A turn adds to the journal exactly the calls it makes. */
  lemma TurnCredit(w: World, turn: nat, instructions: seq<string>, a: LoopState, b: LoopState,
                   next: Option<seq<Message>>, end: AgentEnd, x: string)
    requires TurnStep(w, turn, instructions, a, b, next, end)
    ensures Credit(b.journal, x) == Credit(a.journal, x) + Count(TurnCalls(w, turn, a.journal), x)
  {
    match w.model(turn) {
      case Fails(error) => CaughtJournal(w, instructions, error, a, b, next, end);
      case reply =>
        var mid, h :| Handles(w, turn + 1, reply, a, mid, h)
                      && Concludes(w, turn, instructions, mid, h, b, next, end);
        ConcludedJournal(w, turn, instructions, mid, h, b, next, end);
        HandledCredit(w, turn, a, mid, h, x);
    }
  }

  // ---------------------------------------------------------------- a run

  /** The calls to x in the first n turns. */
  function CallsTo(w: World, states: seq<LoopState>, n: nat, x: string): nat
    requires n <= |states|
  {
    if n == 0 then 0
    else CallsTo(w, states, n - 1, x) + Count(TurnCalls(w, n - 1, states[n - 1].journal), x)
  }

  /** After any number of turns the journal has grown by exactly the calls made. */
  lemma {:induction false} CallsAccounted(
      w: World, instructions: seq<string>, states: seq<LoopState>, n: nat, x: string)
    requires LoopSteps(w, instructions, states) && n < |states|
    ensures Credit(states[n].journal, x) == Credit(states[0].journal, x) + CallsTo(w, states, n, x)
  {
    if n > 0 {
      CallsAccounted(w, instructions, states, n - 1, x);
      assert GoesOn(w, n - 1, instructions, states[n - 1], states[n]);
      var b := states[n].(messages := states[n - 1].messages);
      var end :| TurnStep(w, n - 1, instructions, states[n - 1], b, Some(states[n].messages), end);
      TurnCredit(w, n - 1, instructions, states[n - 1], b, Some(states[n].messages), end, x);
    }
  }

  /** The turns of a run, the one it ends in included. */
  function Turns(states: seq<LoopState>, end: AgentEnd): nat
    requires states != []
  {
    if end == MaxTurns then |states| - 1 else |states|
  }

  lemma RunAccounted(
      w: World, instructions: seq<string>, states: seq<LoopState>, last: LoopState, end: AgentEnd, x: string)
    requires RunTrace(w, instructions, states, last, end)
    ensures Credit(last.journal, x) == Credit(states[0].journal, x) + CallsTo(w, states, Turns(states, end), x)
  {
    var n := |states| - 1;
    CallsAccounted(w, instructions, states, n, x);
    if end != MaxTurns { EndCredit(w, n, instructions, states[n], last, end, x); }
  }

  lemma EndCredit(w: World, turn: nat, instructions: seq<string>, a: LoopState, b: LoopState, end: AgentEnd, x: string)
    requires EndsIn(w, turn, instructions, a, b, end)
    ensures Credit(b.journal, x) == Credit(a.journal, x) + Count(TurnCalls(w, turn, a.journal), x)
  {
    TurnCredit(w, turn, instructions, a, b, None, end, x);
  }

  // ---------------------------------------------------------------- the recovery pass

  function RecoveryCalls(w: World, messages: seq<Message>, j: M.Journal): seq<string> {
    var uses := PendingUses(messages);
    if uses == [] || !Authorizes(w, uses) || !M.AllMatch(j, Identities(uses)) then []
    else PassCalls(TurnOf(w, uses), j, w.tools(0))
  }

  /** The calls made before the loop. */
  function EntryCalls(w: World, messages: seq<Message>, present: bool, j: M.Journal): seq<string> {
    var uses := PendingUses(messages);
    var ids := Identities(uses);
    if present || ids == [] then RecoveryCalls(w, messages, j)
    else if !M.AllNamed(ids) || !DistinctIds(uses) || !M.AllMatch(j, ids) then []
    else RecoveryCalls(w, messages, M.ObserveAll(j, ids))
  }

  lemma ResolvedCredit(
      w: World, messages: seq<Message>, j: M.Journal, after: M.Journal, h: Option<Handled>, x: string)
    requires Resolved(w, messages, j, after, h)
    ensures Credit(after, x) == Credit(j, x) + Count(RecoveryCalls(w, messages, j), x)
  {
    var uses := PendingUses(messages);
    if uses != [] && Authorizes(w, uses) && M.AllMatch(j, Identities(uses)) {
      PassCredit(TurnOf(w, uses), j, w.tools(0), after, x);
    }
  }

  lemma EntryAccounted(w: World, messages: seq<Message>, present: bool, j: M.Journal, after: M.Journal,
                       h: Option<Handled>, x: string)
    requires Entered(w, messages, present, j, after, h)
    ensures Credit(after, x) == Credit(j, x) + Count(EntryCalls(w, messages, present, j), x)
  {
    var ids := Identities(PendingUses(messages));
    if present || ids == [] {
      ResolvedCredit(w, messages, j, after, h, x);
    } else if M.AllNamed(ids) && DistinctIds(PendingUses(messages)) && M.AllMatch(j, ids) {
      ObserveCredit(j, ids, x);
      ResolvedCredit(w, messages, M.ObserveAll(j, ids), after, h, x);
    }
  }

  /** A whole run, recovery pass and all turns, calls a tool use as often as the journal has grown by
      resets and dispatches: at most once per approval boundary on record, and once more. */
  lemma CalledOncePerBoundary(
      w: World, messages: seq<Message>, present: bool, j: M.Journal, entry: Option<Handled>, instructions: seq<string>,
      states: seq<LoopState>, last: LoopState, end: AgentEnd, x: string)
    requires RunTrace(w, instructions, states, last, end)
    requires Entered(w, messages, present, j, states[0].journal, entry)
    ensures var calls := Count(EntryCalls(w, messages, present, j), x) + CallsTo(w, states, Turns(states, end), x);
      && Credit(j, x) + calls == Credit(last.journal, x)
      && calls <= M.Boundaries(last.journal, x) + 1
  {
    EntryAccounted(w, messages, present, j, states[0].journal, entry, x);
    RunAccounted(w, instructions, states, last, end, x);
  }
}
