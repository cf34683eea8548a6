/** When a run of the agent stops for diminishing returns, read off the tools' results. */
module ToolGain {
  import opened Common
  import M = Manifest
  import P = ToolProtocol
  import D = ToolDispatch
  import opened ToolGroups
  import opened Transcript
  import opened Compaction
  import opened RuntimeState
  import opened AgentLoop
  import opened AgentRunner
  import opened AgentRun

  type Results = seq<(string, M.ToolResult)>

  // ---------------------------------------------------------------- the errors of a turn

  function Errors(results: Results): set<nat> { set i: nat | 0 <= i < |results| && results[i].1.isError }

  lemma {:induction false} ErrorCountLast(results: Results, last: (string, M.ToolResult))
    ensures ErrorCount(results + [last]) == ErrorCount(results) + if last.1.isError then 1 else 0
  {
    if results == [] {
      assert [] + [last] == [last] && [last][1..] == [];
    } else {
      assert (results + [last])[1..] == results[1..] + [last];
      ErrorCountLast(results[1..], last);
    }
  }

  /** What is recorded is how many results are errors. */
  lemma {:induction false} ErrorsCounted(results: Results)
    ensures ErrorCount(results) == |Errors(results)|
  {
    if results == [] {
      assert Errors(results) == {};
    } else {
      var n := |results| - 1;
      var front, last := results[..n], results[n];
      assert results == front + [last];
      ErrorsCounted(front);
      ErrorCountLast(front, last);
      ErrorsLast(front, last);
    }
  }

  lemma ErrorsLast(front: Results, last: (string, M.ToolResult))
    ensures |Errors(front + [last])| == |Errors(front)| + if last.1.isError then 1 else 0
  {
    var all: nat := |front|;
    assert Errors(front + [last]) == Errors(front) + if last.1.isError then {all} else {};
  }

  predicate AllFailed(results: Results) { forall i :: 0 <= i < |results| ==> results[i].1.isError }

  lemma {:induction false} ErrorsAtMost(results: Results)
    ensures ErrorCount(results) <= |results|
    ensures ErrorCount(results) == |results| <==> AllFailed(results)
  {
    if results != [] {
      ErrorsAtMost(results[1..]);
      assert forall i :: 0 < i < |results| ==> results[i] == results[1..][i - 1];
      assert forall i :: 0 <= i < |results| - 1 ==> results[1..][i] == results[i + 1];
    }
  }

  // ---------------------------------------------------------------- the outcome of a turn

  /** Two turns have the same outcome text. */
  predicate SameOutcome(w: World, uses: seq<ToolUse>, results: Results, before: seq<ToolUse>, earlier: Results)
    requires |uses| == |results| && |before| == |earlier|
  {
    OutcomeSignature(uses, results, w.hash) == OutcomeSignature(before, earlier, w.hash)
  }

  /** Digests all have the same length. */
  ghost predicate FixedLength(hash: string -> string) { forall s, t :: |hash(s)| == |hash(t)| }

  function Tail(u: ToolUse, r: M.ToolResult, hash: string -> string): string {
    (if r.isError then ":err:" else ":ok:") + hash(r.rawText)
  }

  lemma SameTail(u: ToolUse, r: M.ToolResult, q: M.ToolResult, hash: string -> string, a: string, b: string)
    requires FixedLength(hash) && Tail(u, r, hash) + a == Tail(u, q, hash) + b
    ensures r.isError == q.isError && hash(r.rawText) == hash(q.rawText) && a == b
  {
    var left, right := Tail(u, r, hash) + a, Tail(u, q, hash) + b;
    assert left[1] == right[1];
    var n := if r.isError then 5 else 4;
    var m := |hash(r.rawText)|;
    assert |hash(q.rawText)| == m;
    assert left[n..n + m] == hash(r.rawText) && right[n..n + m] == hash(q.rawText);
    assert left[n + m..] == a && right[n + m..] == b;
  }

  function OutcomeTexts(uses: seq<ToolUse>, results: Results, hash: string -> string): seq<string>
    requires |uses| == |results|
  {
    seq(|uses|, i requires 0 <= i < |uses| => OutcomeText(uses[i], results[i].1, hash))
  }

  lemma JoinCons(parts: seq<string>)
    requires |parts| > 1
    ensures Join(parts, "|") == parts[0] + ("|" + Join(parts[1..], "|"))
  {
    ConcatAssoc(parts[0], "|", Join(parts[1..], "|"));
  }

  /** Repeating the same calls has the same outcome exactly when every call ends with the same status
      and the same digest of its text. */
  lemma {:induction false} SameCallsOutcome(w: World, uses: seq<ToolUse>, results: Results, earlier: Results)
    requires |uses| == |results| == |earlier| && FixedLength(w.hash)
    ensures SameOutcome(w, uses, results, uses, earlier) <==>
      forall i :: 0 <= i < |uses| ==>
        results[i].1.isError == earlier[i].1.isError && w.hash(results[i].1.rawText) == w.hash(earlier[i].1.rawText)
  {
    var a, b := OutcomeTexts(uses, results, w.hash), OutcomeTexts(uses, earlier, w.hash);
    TextsDecide(uses, results, earlier, w.hash);
  }

  ghost predicate EndAlike(uses: seq<ToolUse>, results: Results, earlier: Results, hash: string -> string)
    requires |uses| == |results| == |earlier|
  {
    forall i :: 0 <= i < |uses| ==>
      results[i].1.isError == earlier[i].1.isError && hash(results[i].1.rawText) == hash(earlier[i].1.rawText)
  }

  lemma {:induction false} TextsDecide(
      uses: seq<ToolUse>, results: Results, earlier: Results, hash: string -> string)
    requires |uses| == |results| == |earlier| && FixedLength(hash)
    ensures Join(OutcomeTexts(uses, results, hash), "|") == Join(OutcomeTexts(uses, earlier, hash), "|")
            <==> EndAlike(uses, results, earlier, hash)
  {
    var a, b := OutcomeTexts(uses, results, hash), OutcomeTexts(uses, earlier, hash);
    if EndAlike(uses, results, earlier, hash) { assert a == b; }
    if Join(a, "|") == Join(b, "|") && uses != [] {
      FirstDecides(uses, results, earlier, hash);
      var rest, r, q := uses[1..], results[1..], earlier[1..];
      assert a[1..] == OutcomeTexts(rest, r, hash) && b[1..] == OutcomeTexts(rest, q, hash);
      TextsDecide(rest, r, q, hash);
      assert forall i :: 0 < i < |uses| ==> results[i] == r[i - 1] && earlier[i] == q[i - 1];
    }
  }

  /** The first call, and what follows it. */
  lemma FirstDecides(uses: seq<ToolUse>, results: Results, earlier: Results, hash: string -> string)
    requires |uses| == |results| == |earlier| && FixedLength(hash) && uses != []
    requires Join(OutcomeTexts(uses, results, hash), "|") == Join(OutcomeTexts(uses, earlier, hash), "|")
    ensures results[0].1.isError == earlier[0].1.isError
    ensures hash(results[0].1.rawText) == hash(earlier[0].1.rawText)
    ensures Join(OutcomeTexts(uses, results, hash)[1..], "|") == Join(OutcomeTexts(uses, earlier, hash)[1..], "|")
  {
    var a, b := OutcomeTexts(uses, results, hash), OutcomeTexts(uses, earlier, hash);
    var u, r, q := uses[0], results[0].1, earlier[0].1;
    var head := CallText(u);
    var x := if |uses| == 1 then "" else "|" + Join(a[1..], "|");
    var y := if |uses| == 1 then "" else "|" + Join(b[1..], "|");
    if |uses| > 1 { JoinCons(a); JoinCons(b); }
    SplitText(u, r, hash, x);
    SplitText(u, q, hash, y);
    assert Join(a, "|") == head + (Tail(u, r, hash) + x);
    assert Join(b, "|") == head + (Tail(u, q, hash) + y);
    assert (head + (Tail(u, r, hash) + x))[|head|..] == Tail(u, r, hash) + x;
    assert (head + (Tail(u, q, hash) + y))[|head|..] == Tail(u, q, hash) + y;
    SameTail(u, r, q, hash, x, y);
    if |uses| > 1 { assert x[1..] == Join(a[1..], "|") && y[1..] == Join(b[1..], "|"); }
  }

  lemma SplitText(u: ToolUse, r: M.ToolResult, hash: string -> string, rest: string)
    ensures OutcomeText(u, r, hash) + rest == CallText(u) + (Tail(u, r, hash) + rest)
  {
    ConcatAssoc(CallText(u), if r.isError then ":err:" else ":ok:", hash(r.rawText));
    ConcatAssoc(CallText(u), Tail(u, r, hash), rest);
  }

  /** For one call of the same tool the input counts too. */
  lemma OneCallOutcome(w: World, u: ToolUse, v: ToolUse, r: M.ToolResult, q: M.ToolResult, x: string, y: string)
    requires FixedLength(w.hash) && u.name == v.name
    ensures SameOutcome(w, [u], [(x, r)], [v], [(y, q)]) <==>
      u.input == v.input && r.isError == q.isError && w.hash(r.rawText) == w.hash(q.rawText)
  {
    var a, b := OutcomeText(u, r, w.hash), OutcomeText(v, q, w.hash);
    assert OutcomeTexts([u], [(x, r)], w.hash) == [a] && OutcomeTexts([v], [(y, q)], w.hash) == [b];
    if a == b {
      var m := |w.hash(r.rawText)|;
      assert |w.hash(q.rawText)| == m;
      assert a[|a| - m..] == w.hash(r.rawText) && b[|b| - m..] == w.hash(q.rawText);
      assert a[|a| - m - 2] == b[|b| - m - 2];
      assert r.isError == q.isError;
      var n := (if r.isError then 5 else 4) + m;
      assert a[..|a| - n] == CallText(u) && b[..|b| - n] == CallText(v);
      assert CallText(u)[|u.name| + 1..] == u.input && CallText(v)[|v.name| + 1..] == v.input;
    }
  }

  // ---------------------------------------------------------------- the tool turns of a run

  /** A tool turn that completed: the calls and their results. */
  datatype ToolTurnEnd = ToolTurnEnd(uses: seq<ToolUse>, results: Results)

  /** What the turn that starts from journal j completes with, if it is a tool turn that does. */
  function CompletedWith(w: World, turn: nat, j: M.Journal): Option<ToolTurnEnd> {
    match w.model(turn)
    case Responds(blocks, stop) =>
      var uses := Uses(blocks);
      if uses == [] || stop.UnknownStop? || stop.Truncation? || !CanObserve(w, uses, j) then None
      else
        (match D.TurnOutcome(TurnOf(w, uses), M.ObserveAll(j, Identities(uses)), w.tools(turn + 1))
         case Completed(results) => Some(ToolTurnEnd(uses, results))
         case _ => None)
    case _ => None
  }

  lemma CompletionCounts(w: World, turn: nat, j: M.Journal)
    requires CompletedWith(w, turn, j).Some?
    ensures var c := CompletedWith(w, turn, j).value; |c.results| == |c.uses| > 0
  {
    var uses := Uses(w.model(turn).blocks);
    var t, j1 := TurnOf(w, uses), M.ObserveAll(j, Identities(uses));
    TurnAttempts(w, uses);
    CompletedInOrder(t, t.groups, {}, D.ClassesOf(t, j1), w.tools(turn + 1));
  }

  /** All calls failed, or the outcome is the one of the tool turn right before. */
  predicate NoProgress(w: World, c: Option<ToolTurnEnd>, before: Option<ToolTurnEnd>) {
    && c.Some?
    && (AllFailed(c.value.results)
        || (before.Some? && |c.value.uses| == |c.value.results| && |before.value.uses| == |before.value.results|
            && SameOutcome(w, c.value.uses, c.value.results, before.value.uses, before.value.results)))
  }

  function CompletionAt(w: World, states: seq<LoopState>, n: int): Option<ToolTurnEnd>
    requires n < |states|
  {
    if n < 0 then None else CompletedWith(w, n, states[n].journal)
  }

  predicate Unproductive(w: World, states: seq<LoopState>, n: nat)
    requires n < |states|
  {
    NoProgress(w, CompletionAt(w, states, n), CompletionAt(w, states, n - 1))
  }

  /** What a turn adds to the history when the run goes on, or stops for diminishing returns. */
  ghost predicate Records(w: World, turn: nat, a: LoopState, b: LoopState) {
    var c := CompletedWith(w, turn, a.journal);
    if c.Some? then b.history == a.history + [TurnEvent(w, c.value.uses, c.value.results)]
    else |a.history| < |b.history| && a.history == b.history[..|a.history|] && b.history[|b.history| - 1] == Reset
  }

  lemma HandledRecords(w: World, turn: nat, a: LoopState, b: LoopState, h: Handled)
    requires !w.model(turn).Fails? && Handles(w, turn + 1, w.model(turn), a, b, h)
    ensures CompletedWith(w, turn, a.journal).Some? ==>
      Records(w, turn, a, b) && (h.Continue? || h == Stop(DiminishingReturns))
    ensures CompletedWith(w, turn, a.journal).None? ==>
      if h.Continue? then Records(w, turn, a, b)
      else h != Stop(DiminishingReturns) && (b.history == a.history || b.history == a.history + [Reset])
  {
  }

  lemma CaughtRecords(w: World, turn: nat, instructions: seq<string>, error: string, a: LoopState, mid: LoopState,
                      b: LoopState, next: Option<seq<Message>>, end: AgentEnd)
    requires Caught(w, instructions, error, mid, b, next, end) && next.Some? && CompletedWith(w, turn, a.journal).None?
    requires mid.history == a.history || mid.history == a.history + [Reset]
    ensures Records(w, turn, a, b)
  {
    assert b.history == mid.history + [Reset];
  }

  lemma ConcludedRecords(w: World, turn: nat, instructions: seq<string>, a: LoopState, mid: LoopState, h: Handled,
                         b: LoopState, next: Option<seq<Message>>, end: AgentEnd)
    requires !w.model(turn).Fails? && Handles(w, turn + 1, w.model(turn), a, mid, h)
    requires Concludes(w, turn, instructions, mid, h, b, next, end) && (next.Some? || end == DiminishingReturns)
    ensures Records(w, turn, a, b)
  {
    HandledRecords(w, turn, a, mid, h);
    if h.Throw? { CaughtRecords(w, turn, instructions, w.thrown(turn), a, mid, b, next, end); }
  }

  lemma TurnRecords(w: World, turn: nat, instructions: seq<string>, a: LoopState, b: LoopState,
                    next: Option<seq<Message>>, end: AgentEnd)
    requires TurnStep(w, turn, instructions, a, b, next, end) && (next.Some? || end == DiminishingReturns)
    ensures Records(w, turn, a, b)
  {
    match w.model(turn) {
      case Fails(error) => CaughtRecords(w, turn, instructions, error, a, a, b, next, end);
      case reply =>
        var mid, h :| Handles(w, turn + 1, reply, a, mid, h)
                      && Concludes(w, turn, instructions, mid, h, b, next, end);
        ConcludedRecords(w, turn, instructions, a, mid, h, b, next, end);
    }
  }

  /** A completed tool turn ends the run only for diminishing returns. */
  lemma CompletionGoesOn(w: World, turn: nat, instructions: seq<string>, a: LoopState, b: LoopState,
                         next: Option<seq<Message>>, end: AgentEnd)
    requires TurnStep(w, turn, instructions, a, b, next, end) && CompletedWith(w, turn, a.journal).Some?
    ensures next.Some? || end == DiminishingReturns
  {
    var reply := w.model(turn);
    var mid, h :| Handles(w, turn + 1, reply, a, mid, h)
                  && Concludes(w, turn, instructions, mid, h, b, next, end);
    HandledRecords(w, turn, a, mid, h);
  }

  /** State b is what turn n leaves when the run goes on or stops for diminishing returns. */
  ghost predicate Leaves(w: World, instructions: seq<string>, states: seq<LoopState>, n: nat, b: LoopState) {
    && n < |states|
    && exists next, end ::
         TurnStep(w, n, instructions, states[n], b, next, end) && (next.Some? || end == DiminishingReturns)
  }

  lemma TurnLeaves(w: World, instructions: seq<string>, states: seq<LoopState>, n: nat) returns (b: LoopState)
    requires LoopSteps(w, instructions, states) && n + 1 < |states|
    ensures Leaves(w, instructions, states, n, b) && b.history == states[n + 1].history
  {
    assert GoesOn(w, n, instructions, states[n], states[n + 1]);
    b := states[n + 1].(messages := states[n].messages);
    var end :| TurnStep(w, n, instructions, states[n], b, Some(states[n + 1].messages), end);
  }

  lemma SignatureNotEmpty(w: World, uses: seq<ToolUse>, results: Results)
    requires |uses| == |results| > 0
    ensures OutcomeSignature(uses, results, w.hash) != ""
  {
    var texts := OutcomeTexts(uses, results, w.hash);
    assert texts[0] == OutcomeText(uses[0], results[0].1, w.hash) && |texts[0]| > 0;
  }

  /** The history ends with the event of a completed tool turn, or with a reset. */
  ghost predicate EndsWith(w: World, history: seq<Event>, c: Option<ToolTurnEnd>) {
    && history != []
    && var e := history[|history| - 1];
       if c.Some? then |c.value.results| == |c.value.uses| > 0 && e == TurnEvent(w, c.value.uses, c.value.results)
       else e == Reset
  }

  lemma LeavesEndsWith(w: World, instructions: seq<string>, states: seq<LoopState>, n: nat, b: LoopState)
    requires Leaves(w, instructions, states, n, b)
    ensures EndsWith(w, b.history, CompletedWith(w, n, states[n].journal)) && Records(w, n, states[n], b)
  {
    var next, end :| TurnStep(w, n, instructions, states[n], b, next, end) && (next.Some? || end == DiminishingReturns);
    TurnRecords(w, n, instructions, states[n], b, next, end);
    if CompletedWith(w, n, states[n].journal).Some? { CompletionCounts(w, n, states[n].journal); }
  }

  /** A turn is low-gain if every call failed, or if the event before has the same outcome. */
  lemma EventLowGain(w: World, history: seq<Event>, c: ToolTurnEnd, before: Option<ToolTurnEnd>)
    requires |c.results| == |c.uses| > 0 && (history == [] || EndsWith(w, history, before))
    ensures LowGain(history + [TurnEvent(w, c.uses, c.results)], |history|) <==>
      NoProgress(w, Some(c), if history == [] then None else before)
  {
    ErrorsAtMost(c.results);
    SignatureNotEmpty(w, c.uses, c.results);
    var longer := history + [TurnEvent(w, c.uses, c.results)];
    if history != [] { assert longer[|history| - 1] == history[|history| - 1]; }
  }

  /** What the history h after turn n tells of it: it ends with the turn's event, which is low-gain if
      and only if the turn was unproductive. */
  ghost predicate Tells(w: World, states: seq<LoopState>, n: nat, h: seq<Event>) {
    && n < |states| && EndsWith(w, h, CompletionAt(w, states, n))
    && (LowGain(h, |h| - 1) <==> Unproductive(w, states, n))
    && (CompletionAt(w, states, n).Some? ==>
          var c := CompletionAt(w, states, n).value; h == states[n].history + [TurnEvent(w, c.uses, c.results)])
  }

  lemma TurnTells(w: World, instructions: seq<string>, states: seq<LoopState>, n: nat, b: LoopState)
    requires LoopSteps(w, instructions, states) && states[0].history == []
    requires Leaves(w, instructions, states, n, b)
    ensures Tells(w, states, n, b.history)
  {
    LeavesEndsWith(w, instructions, states, n, b);
    HistoryEnds(w, instructions, states, n);
    RecordTells(w, states, n, b.history);
  }

  lemma RecordTells(w: World, states: seq<LoopState>, n: nat, h: seq<Event>)
    requires n < |states| && EndsWith(w, h, CompletionAt(w, states, n))
    requires CompletionAt(w, states, n).Some? ==>
      var c := CompletionAt(w, states, n).value; h == states[n].history + [TurnEvent(w, c.uses, c.results)]
    requires if n == 0 then states[n].history == [] && CompletionAt(w, states, n - 1) == None
             else EndsWith(w, states[n].history, CompletionAt(w, states, n - 1))
    ensures Tells(w, states, n, h)
  {
    RecordedLowGain(w, states[n].history, h, CompletionAt(w, states, n), CompletionAt(w, states, n - 1));
  }

  lemma HistoryEnds(w: World, instructions: seq<string>, states: seq<LoopState>, n: nat)
    requires LoopSteps(w, instructions, states) && states[0].history == [] && n < |states|
    ensures if n == 0 then states[n].history == [] && CompletionAt(w, states, n - 1) == None
            else EndsWith(w, states[n].history, CompletionAt(w, states, n - 1))
  {
    if n > 0 {
      var k := n - 1;
      var a := TurnLeaves(w, instructions, states, k);
      LeavesEndsWith(w, instructions, states, k, a);
    }
  }

  lemma RecordedLowGain(
      w: World, before: seq<Event>, after: seq<Event>, c: Option<ToolTurnEnd>, previous: Option<ToolTurnEnd>)
    requires if before == [] then previous == None else EndsWith(w, before, previous)
    requires EndsWith(w, after, c)
    requires c.Some? ==> after == before + [TurnEvent(w, c.value.uses, c.value.results)]
    ensures LowGain(after, |after| - 1) <==> NoProgress(w, c, previous)
  {
    if c.Some? { EventLowGain(w, before, c.value, previous); }
  }

  lemma TwoLowGains(history: seq<Event>)
    requires |history| >= 2 && LowGain(history, |history| - 1) && LowGain(history, |history| - 2)
    ensures Diminishing(history)
  {
    var n := LongestRun(history);
    assert TrailingRun(history, n) && n >= MAX_LOW_GAIN_STREAK;
  }

  lemma DiminishingLast(history: seq<Event>)
    requires Diminishing(history)
    ensures |history| >= 2 && LowGain(history, |history| - 1) && LowGain(history, |history| - 2)
  {
    var k :| k >= MAX_LOW_GAIN_STREAK && TrailingRun(history, k);
  }

  /** The last two turns of a state are unproductive exactly when its history diminishes. */
  lemma TwoUnproductive(w: World, instructions: seq<string>, states: seq<LoopState>, n: nat, b: LoopState)
    requires LoopSteps(w, instructions, states) && states[0].history == []
    requires Leaves(w, instructions, states, n, b)
    ensures Diminishing(b.history) <==> n > 0 && Unproductive(w, states, n) && Unproductive(w, states, n - 1)
  {
    TurnTells(w, instructions, states, n, b);
    BeforeTells(w, instructions, states, n);
    TwoTell(w, states, n, b.history);
  }

  lemma BeforeTells(w: World, instructions: seq<string>, states: seq<LoopState>, n: nat)
    requires LoopSteps(w, instructions, states) && states[0].history == [] && n < |states|
    ensures if n == 0 then states[n].history == [] else Tells(w, states, n - 1, states[n].history)
  {
    if n > 0 { PreviousTells(w, instructions, states, n - 1); }
  }

  lemma PreviousTells(w: World, instructions: seq<string>, states: seq<LoopState>, k: nat)
    requires LoopSteps(w, instructions, states) && states[0].history == [] && k + 1 < |states|
    ensures Tells(w, states, k, states[k + 1].history)
  {
    var before := TurnLeaves(w, instructions, states, k);
    TurnTells(w, instructions, states, k, before);
  }

  lemma TwoTell(w: World, states: seq<LoopState>, n: nat, h: seq<Event>)
    requires Tells(w, states, n, h)
    requires if n == 0 then states[n].history == [] else Tells(w, states, n - 1, states[n].history)
    ensures Diminishing(h) <==> n > 0 && Unproductive(w, states, n) && Unproductive(w, states, n - 1)
  {
    DiminishingStep(w, states[n].history, h, CompletionAt(w, states, n));
  }

  lemma DiminishingStep(w: World, before: seq<Event>, after: seq<Event>, c: Option<ToolTurnEnd>)
    requires EndsWith(w, after, c)
    requires c.Some? ==> after == before + [TurnEvent(w, c.value.uses, c.value.results)]
    ensures Diminishing(after) <==>
      c.Some? && LowGain(after, |after| - 1) && before != [] && LowGain(before, |before| - 1)
  {
    if Diminishing(after) { DiminishingLast(after); }
    if c.Some? && before != [] {
      LowGainKept(before, TurnEvent(w, c.value.uses, c.value.results), |before| - 1);
      if LowGain(after, |after| - 1) && LowGain(after, |after| - 2) { TwoLowGains(after); }
    }
  }

  /** A run stops for diminishing returns exactly when its last two turns are tool turns without
      progress, and two such turns never follow each other before that. */
  lemma StopsAfterTwo(
      w: World, instructions: seq<string>, states: seq<LoopState>, last: LoopState, end: AgentEnd, n: nat)
    requires RunTrace(w, instructions, states, last, end) && states[0].history == []
    requires 0 < n < (if end == MaxTurns then |states| - 1 else |states|)
    ensures Unproductive(w, states, n) && Unproductive(w, states, n - 1)
            <==> n == |states| - 1 && end == DiminishingReturns
  {
    StopsInTime(w, instructions, states, last, end);
    if n + 1 < |states| {
      var b := TurnLeaves(w, instructions, states, n);
      TwoUnproductive(w, instructions, states, n, b);
    } else {
      if Unproductive(w, states, n) {
        CompletionGoesOn(w, n, instructions, states[n], last, None, end);
      }
      if end == DiminishingReturns {
        assert Leaves(w, instructions, states, n, last);
        TwoUnproductive(w, instructions, states, n, last);
      }
    }
  }

  /** And never after a single turn. */
  lemma NeverAfterOne(w: World, instructions: seq<string>, states: seq<LoopState>, last: LoopState)
    requires RunTrace(w, instructions, states, last, DiminishingReturns) && states[0].history == []
    ensures |states| >= 2
  {
    StopsInTime(w, instructions, states, last, DiminishingReturns);
    if |states| == 1 {
      assert Leaves(w, instructions, states, 0, last);
      TwoUnproductive(w, instructions, states, 0, last);
    }
  }
}
