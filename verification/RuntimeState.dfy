/** The recovery budget of one agent run, and when repetition ends it. */
module RuntimeState {
  import opened Common
  import opened Transcript
  import opened Excerpts
  import opened Compaction

  const MAX_OVERFLOW_RETRIES: nat := 1
  const MAX_TRUNCATION_RETRIES: nat := 1
  const MAX_LOW_GAIN_STREAK: nat := 2
  const TRUNCATION_NOTICE :=
    MARKER_PREFIX + " Previous assistant response was truncated by max_tokens. "
    + "Continue from the unfinished point without repeating completed content unless needed."

  /** What has happened to the tracking: a turn with its tool calls, or a reset. */
  datatype Event = ToolTurn(outcome: string, calls: nat, errors: nat) | Reset

  datatype Reason = AllToolsErrored | RepeatedToolOutcome

  datatype GainMarker = LowGainTurn(streak: nat, reason: Reason) | DiminishingReturnsStop(streak: nat)

  // ---------------------------------------------------------------- low gain, read off the history

  predicate RepeatsPrevious(history: seq<Event>, i: nat)
    requires i < |history| && history[i].ToolTurn?
  {
    && i > 0 && history[i].outcome != ""
    && history[i - 1].ToolTurn? && history[i - 1].calls > 0 && history[i - 1].outcome == history[i].outcome
  }

  /** A turn without progress: every call failed, or the outcome is the previous turn's. */
  predicate LowGain(history: seq<Event>, i: nat)
    requires i < |history|
  {
    && history[i].ToolTurn? && history[i].calls > 0
    && (history[i].errors == history[i].calls || RepeatsPrevious(history, i))
  }

  /** The history ends with exactly n low-gain turns. */
  ghost predicate TrailingRun(history: seq<Event>, n: nat) {
    && n <= |history|
    && (forall i :: |history| - n <= i < |history| ==> LowGain(history, i))
    && (n < |history| ==> !LowGain(history, |history| - n - 1))
  }

  lemma NotLowGain(history: seq<Event>, n: nat)
    requires TrailingRun(history, n) && n < |history|
    ensures exists i :: i == |history| - n - 1 && !LowGain(history, i)
  {
    assert !LowGain(history, |history| - n - 1);
  }

  lemma TrailingRunUnique(history: seq<Event>, n: nat, k: nat)
    requires TrailingRun(history, n) && TrailingRun(history, k)
    ensures n == k
  {
    if n < k { NotLowGain(history, n); }
    if k < n { NotLowGain(history, k); }
  }

  lemma LowGainKept(history: seq<Event>, e: Event, i: nat)
    requires i < |history|
    ensures LowGain(history + [e], i) <==> LowGain(history, i)
  {
    assert (history + [e])[i] == history[i];
    if i > 0 { assert (history + [e])[i - 1] == history[i - 1]; }
  }

  lemma TrailingRunGrows(history: seq<Event>, n: nat, e: Event)
    requires TrailingRun(history, n)
    ensures var longer := history + [e];
      TrailingRun(longer, if LowGain(longer, |history|) then n + 1 else 0)
  {
    forall i | 0 <= i < |history|
      ensures LowGain(history + [e], i) <==> LowGain(history, i)
    {
      LowGainKept(history, e, i);
    }
  }

  // ---------------------------------------------------------------- the state

  class AgentRuntimeState {
    var windowPressureHigh: bool
    var overflowRetryCount: nat
    var truncationRetryCount: nat
    var lowGainStreak: nat
    var lastToolCallSignature: Option<string>
    var lastToolOutcomeSignature: Option<string>
    ghost var history: seq<Event>

    ghost predicate BudgetOk()
      reads this`overflowRetryCount, this`truncationRetryCount, this`windowPressureHigh
    {
      && overflowRetryCount <= MAX_OVERFLOW_RETRIES && truncationRetryCount <= MAX_TRUNCATION_RETRIES
      && (windowPressureHigh <==> overflowRetryCount + truncationRetryCount > 0)
    }

    /** The streak is the length of the trailing run of low-gain turns. */
    ghost predicate GainOk()
      reads this`lowGainStreak, this`lastToolCallSignature, this`lastToolOutcomeSignature, this`history
    {
      && TrailingRun(history, lowGainStreak)
      && lastToolOutcomeSignature == LastOutcome(history)
      && (lastToolCallSignature.Some? <==> lastToolOutcomeSignature.Some?)
    }

    ghost predicate Valid()
      reads this
    {
      BudgetOk() && GainOk()
    }

    constructor ()
      ensures Valid() && history == [] && overflowRetryCount == 0 && truncationRetryCount == 0
    {
      windowPressureHigh, overflowRetryCount, truncationRetryCount, lowGainStreak := false, 0, 0, 0;
      lastToolCallSignature, lastToolOutcomeSignature := None, None;
      history := [];
    }

    method ResetLowGainTracking()
      requires Valid()
      modifies this`lowGainStreak, this`lastToolCallSignature, this`lastToolOutcomeSignature, this`history
      ensures Valid() && history == old(history) + [Reset] && lowGainStreak == 0
    {
      TrailingRunGrows(history, lowGainStreak, Reset);
      lowGainStreak, lastToolCallSignature, lastToolOutcomeSignature := 0, None, None;
      history := history + [Reset];
    }

    /** evaluateLowGainTurn. */
    method EvaluateLowGainTurn(call: string, outcome: string, calls: nat, errors: nat)
      returns (markers: seq<GainMarker>, shouldStop: bool)
      requires Valid()
      modifies this`lowGainStreak, this`lastToolCallSignature, this`lastToolOutcomeSignature, this`history
      ensures Valid() && history == old(history) + [ToolTurn(outcome, calls, errors)]
      ensures shouldStop <==> lowGainStreak >= MAX_LOW_GAIN_STREAK
      ensures markers == MarkersFor(LowGain(history, |history| - 1), lowGainStreak, errors == calls)
    {
      ghost var e := ToolTurn(outcome, calls, errors);
      TrailingRunGrows(history, lowGainStreak, e);
      ghost var longer := history + [e];
      if calls == 0 {
        lowGainStreak, lastToolCallSignature, lastToolOutcomeSignature := 0, None, None;
        history := longer;
        return [], false;
      }
      var repeatedOutcome := |outcome| > 0 && Some(outcome) == lastToolOutcomeSignature;
      var allToolErrors := errors == calls;
      var lowGain := repeatedOutcome || allToolErrors;
      assert RepeatsPrevious(longer, |history|) == repeatedOutcome;
      lastToolCallSignature, lastToolOutcomeSignature := Some(call), Some(outcome);
      lowGainStreak := if lowGain then lowGainStreak + 1 else 0;
      history := longer;
      if !lowGain { return [], false; }
      markers := [LowGainTurn(lowGainStreak, if allToolErrors then AllToolsErrored else RepeatedToolOutcome)];
      if lowGainStreak < MAX_LOW_GAIN_STREAK { return markers, false; }
      return markers + [DiminishingReturnsStop(lowGainStreak)], true;
    }

    /** recoverFromContextOverflow; `overflow` says whether the error names the context window. */
    method RecoverFromContextOverflow(overflow: bool, messages: seq<Message>, instructions: seq<string>)
      returns (r: Option<Compacted>)
      requires BudgetOk()
      modifies this`overflowRetryCount, this`windowPressureHigh
      ensures BudgetOk()
      ensures overflowRetryCount == old(overflowRetryCount) + if r.Some? then 1 else 0
      ensures r.Some? ==> IsCompacted(messages, instructions, r.value)
      ensures r.Some? <==> (overflow && old(overflowRetryCount) < MAX_OVERFLOW_RETRIES && Accepted(messages)
                            && !NothingToCompact(messages, instructions))
    {
      if !overflow || overflowRetryCount >= MAX_OVERFLOW_RETRIES { return None; }
      r := CompactMessagesForOverflow(messages, instructions);
      if r.Some? { overflowRetryCount, windowPressureHigh := overflowRetryCount + 1, true; }
    }

    /** buildTruncationRecovery: nothing once the budget is spent, an error for an empty response. */
    method BuildTruncationRecovery(
        messages: seq<Message>, content: seq<Block>) returns (r: Result<Option<seq<Message>>>)
      requires BudgetOk()
      modifies this`truncationRetryCount, this`windowPressureHigh
      ensures BudgetOk()
      ensures truncationRetryCount == old(truncationRetryCount) + if r.Ok? && r.value.Some? then 1 else 0
      ensures r.Err? <==> old(truncationRetryCount) < MAX_TRUNCATION_RETRIES && content == []
      ensures r.Ok? ==> r.value == if old(truncationRetryCount) >= MAX_TRUNCATION_RETRIES then None
                                   else Some(messages + TruncationTurn(content))
    {
      if truncationRetryCount >= MAX_TRUNCATION_RETRIES { return Ok(None); }
      if content == [] { return Err("Assistant response hit max_tokens without any content to continue."); }
      truncationRetryCount, windowPressureHigh := truncationRetryCount + 1, true;
      return Ok(Some(messages + TruncationTurn(content)));
    }
  }

  function LastOutcome(history: seq<Event>): Option<string> {
    if history != [] && history[|history| - 1].ToolTurn? && history[|history| - 1].calls > 0
    then Some(history[|history| - 1].outcome) else None
  }

  function MarkersFor(lowGain: bool, streak: nat, allErrors: bool): seq<GainMarker> {
    if !lowGain then []
    else [LowGainTurn(streak, if allErrors then AllToolsErrored else RepeatedToolOutcome)]
         + if streak < MAX_LOW_GAIN_STREAK then [] else [DiminishingReturnsStop(streak)]
  }

  function TruncationTurn(content: seq<Block>): seq<Message> {
    [Message(Assistant, Blocks(content)), Message(User, Plain(TRUNCATION_NOTICE))]
  }
}
