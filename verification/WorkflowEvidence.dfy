/** What a workflow step is projected as: refused evidence never as done work, and an ordinary result,
    new or replayed, exactly as it says. */
module WorkflowEvidence {
  import opened Common
  import opened Manifest
  import opened WorkflowPlan
  import opened WorkflowProtocol

  /** The journal holds a reply of the step that is no ordinary result. */
  predicate Evidence(j: Journal, x: string) { x in j && j[x].Committed? && !j[x].result.envelope.Ordinary? }

  // ---------------------------------------------------------------- refused evidence is never done work

  predicate WorksOn(pc: Pc, x: string) {
    match pc
    case Cleared(step) => step == x
    case Observed(step) => step == x
    case Marked(step) => step == x
    case Calling(step) => step == x
    case _ => false
  }

  /** Nobody who has got past the look at the journal works on a committed step, and what is about
      to be projected for refused evidence is a failure. */
  ghost predicate EvidenceInv(s: State) {
    && (forall x :: x in s.journal && s.journal[x].Committed? ==> !WorksOn(s.pc, x) || s.pc == Calling(x))
    && (s.pc.Concluding? && Evidence(s.journal, s.pc.step) ==> s.pc.status == Failed)
  }

  lemma StepKeepsEvidence(request: string -> Identity, s: State, a: Action)
    requires NamesSteps(request) && JournalInv(request, s) && EvidenceInv(s) && Enabled(s, a)
    ensures EvidenceInv(Apply(request, s, a))
  {
    match a
    case Receive(_, _, _, _, _) => assert CanSettle(s.journal, request(s.pc.step));
    case Mark(_, _) => assert Counted(s, s.pc.step);
    case _ =>
  }

  lemma EvidenceStays(request: string -> Identity, s: State, a: Action)
    requires NamesSteps(request) && JournalInv(request, s) && Enabled(s, a)
    ensures forall x :: Evidence(s.journal, x) ==> Evidence(Apply(request, s, a).journal, x)
  {
    match a
    case Receive(_, _, _, _, _) => assert CanSettle(s.journal, request(s.pc.step));
    case Mark(_, _) => assert Counted(s, s.pc.step);
    case _ =>
  }

  lemma EvidenceConcluded(request: string -> Identity, s: State, a: Action)
    requires EvidenceInv(s) && Enabled(s, a)
    ensures var s' := Apply(request, s, a);
      forall k :: |s.trace| <= k < |s'.trace| && s'.trace[k].Concluded? && Evidence(s.journal, s'.trace[k].step) ==>
        s'.trace[k].status == Failed
  {
  }

  lemma {:induction false} RunKeepsEvidence(request: string -> Identity, s: State, actions: seq<Action>, x: string)
    requires NamesSteps(request) && JournalInv(request, s) && EvidenceInv(s) && Run(request, s, actions).Some?
    ensures var s' := Run(request, s, actions).value;
      && EvidenceInv(s') && JournalInv(request, s') && s.trace <= s'.trace
      && (Evidence(s.journal, x) ==>
            forall k :: |s.trace| <= k < |s'.trace| && s'.trace[k].Concluded? && s'.trace[k].step == x ==>
              s'.trace[k].status == Failed)
    decreases |actions|
  {
    if actions != [] {
      var s1 := Apply(request, s, actions[0]);
      StepKeepsEvidence(request, s, actions[0]);
      EvidenceStays(request, s, actions[0]);
      EvidenceConcluded(request, s, actions[0]);
      StepKeepsJournalInv(request, s, actions[0]);
      OneEvent(request, s, actions[0]);
      RunKeepsEvidence(request, s1, actions[1..], x);
    }
  }

  /** Over all runs and crashes: once the journal keeps a reply of a step that is no ordinary result,
      the step is never again projected as anything but failed. */
  lemma RefusedNeverDone(request: string -> Identity, s: State, before: seq<Action>, after: seq<Action>, x: string)
    requires NamesSteps(request) && Initial(s) && Run(request, s, before).Some?
    requires Evidence(Run(request, s, before).value.journal, x)
    requires Run(request, Run(request, s, before).value, after).Some?
    ensures var mid := Run(request, s, before).value;
      var end := Run(request, mid, after).value;
      && mid.trace <= end.trace
      && forall k :: |mid.trace| <= k < |end.trace| && end.trace[k].Concluded? && end.trace[k].step == x ==>
           end.trace[k].status == Failed
  {
    RunKeepsEvidence(request, s, before, x);
    RunKeepsEvidence(request, Run(request, s, before).value, after, x);
  }

  // ---------------------------------------------------------------- when a step may be dispatched

  /** The approval of the boundary on record was granted, and is the one its gate is satisfied by. */
  ghost predicate ApprovedNow(s: State, x: string) {
    forall b :: x in s.journal && s.journal[x].last == Some(b) ==>
      (b.gateId, b.approvalId) in s.approved && b.gateId in s.gates && s.gates[b.gateId] == b.approvalId
  }

  /** A chosen step is cleared for dispatch if and only if it has never been dispatched since the last
      boundary on record, under the identity of its request, and that boundary is approved; an attempt
      that may have been dispatched, or whose intent is missing though it was in progress, stops the
      run, and everything else but a committed step fails. */
  lemma InspectMeaning(request: string -> Identity, s: State, status: StepStatus)
    requires s.pc.Chosen? && Enabled(s, Inspect(status))
    ensures var x, after := s.pc.step, Apply(request, s, Inspect(status));
      var same := x in s.journal ==> s.journal[x].id == request(x);
      && after == s.(pc := after.pc)
      && (after.pc == Cleared(x) <==>
            && (request(x).stepId in s.journal ==> s.journal[request(x).stepId].id == request(x))
            && (if x in s.journal then s.journal[x].Pending? && s.journal[x].state == NotStarted else s.pc.untried)
            && ApprovedNow(s, x))
      && (request(x).stepId == x && same ==>
            (after.pc == Idle <==>
               if x in s.journal then s.journal[x].Pending? && s.journal[x].state == OutcomeUnknown else !s.pc.untried))
  {
  }

  // ---------------------------------------------------------------- what a result is projected as

  lemma RunOne(request: string -> Identity, s: State, a: Action)
    requires Enabled(s, a)
    ensures Run(request, s, [a]) == Some(Apply(request, s, a))
  {
    assert [a][1..] == [];
  }

  lemma RunThree(request: string -> Identity, s: State, a: Action, b: Action, c: Action)
    requires Enabled(s, a) && Enabled(Apply(request, s, a), b)
    requires Enabled(Apply(request, Apply(request, s, a), b), c)
    ensures Run(request, s, [a, b, c]) == Some(Apply(request, Apply(request, Apply(request, s, a), b), c))
  {
    assert [a, b, c][1..] == [b, c] && [b, c][1..] == [c];
    RunOne(request, Apply(request, Apply(request, s, a), b), c);
  }

  /** A committed step that is selected is projected from the journal without a dispatch: an ordinary
      result as what it is replayed as, anything else as a failure. */
  lemma ReplayProjects(request: string -> Identity, s: State, i: nat, status: StepStatus)
    requires DistinctIds(s.plan) && Enabled(s, Choose(i)) && Terminal(status)
    requires var x := s.plan[i].id; x in s.journal && s.journal[x].Committed? && s.journal[x].id == request(x)
    requires request(s.plan[i].id).stepId == s.plan[i].id
    ensures var x := s.plan[i].id;
      var r := Run(request, s, [Choose(i), Inspect(status), Conclude]);
      var shown := if s.journal[x].result.envelope.Ordinary? then status else Failed;
      && r.Some? && r.value.journal == s.journal && r.value.trace == s.trace + [Concluded(x, shown)]
      && |r.value.plan| == |s.plan| && r.value.plan[i] == s.plan[i].(status := shown)
      && r.value.pc == if shown.Failed? then Idle else Top
  {
    RunThree(request, s, Choose(i), Inspect(status), Conclude);
  }

  /** A reply under way whose write succeeds: an ordinary one is committed and projected as its own
      status; one that is refused is committed and projected as a failure. */
  lemma ReplyProjects(request: string -> Identity, s: State, i: nat, r: ToolResult, canonical: bool, retry: Write,
                      status: StepStatus)
    requires DistinctIds(s.plan) && i < |s.plan| && s.pc == Calling(s.plan[i].id) && Terminal(status)
    requires CanSettle(s.journal, request(s.plan[i].id)) && request(s.plan[i].id).stepId == s.plan[i].id
    requires r.envelope.Approval? ==> !canonical || !ValidBoundary(r.envelope.boundary)
    requires retry == Clean
    ensures var x := s.plan[i].id;
      var end := Run(request, s, [Receive(Replied(r), canonical, Clean, retry, status), Conclude]);
      var shown := if r.envelope.Ordinary? then status else Failed;
      && end.Some? && end.value.trace == s.trace + [Concluded(x, shown)]
      && end.value.journal == s.journal[x := Committed(request(x), r, s.journal[x].boundaries, s.journal[x].last)]
      && |end.value.plan| == |s.plan| && end.value.plan[i] == s.plan[i].(status := shown)
      && end.value.pc == if shown.Failed? then Idle else Top
  {
    var a := Receive(Replied(r), canonical, Clean, retry, status);
    assert [a, Conclude][1..] == [Conclude];
    RunOne(request, Apply(request, s, a), Conclude);
  }

  /** An approval request that is accepted resets the attempt and projects nothing. */
  lemma ApprovalResets(request: string -> Identity, s: State, r: ToolResult, retry: Write, status: StepStatus)
    requires s.pc.Calling? && Terminal(status) && CanSettle(s.journal, request(s.pc.step))
    requires request(s.pc.step).stepId == s.pc.step
    requires r.envelope.Approval? && ValidBoundary(r.envelope.boundary)
    ensures var x := s.pc.step;
      var end := Apply(request, s, Receive(Replied(r), true, Clean, retry, status));
      && end.pc.Idle? && end.plan == s.plan && end.trace == s.trace + [WasReset(x, r.envelope.boundary)]
      && end.journal[x] == Entry.Pending(request(x), NotStarted, s.journal[x].boundaries + 1, Some(r.envelope.boundary))
  {
  }

  /** What the write before the dispatch does: nothing may be marked twice, a lost write projects the
      step without a dispatch, and one that fails late leaves the attempt unknown. */
  lemma MarkMeaning(request: string -> Identity, s: State, write: Write, status: StepStatus)
    requires s.pc.Observed? && Terminal(status) && request(s.pc.step).stepId == s.pc.step
    ensures var x, after := s.pc.step, Apply(request, s, Mark(write, status));
      var unstarted := x in s.journal && s.journal[x].id == request(x) && s.journal[x].Pending?
                   && s.journal[x].state == NotStarted;
      && after.trace == s.trace && after.plan == s.plan
      && (unstarted && write != LostWrite ==>
            after.journal == s.journal[x := s.journal[x].(state := OutcomeUnknown)]
            && after.pc == if write == Clean then Marked(x) else Idle)
      && (unstarted && write == LostWrite ==> after.journal == s.journal && after.pc == Concluding(x, status))
      && (!unstarted ==>
            && after.journal == s.journal
            && after.pc == if x in s.journal && s.journal[x].Pending? && s.journal[x].state == OutcomeUnknown then Idle
                           else Concluding(x, status))
  {
  }

  /** Nothing of the step is on file, or an intent that has not been started since its approval. */
  ghost predicate Dispatchable(request: string -> Identity, s: State, x: string) {
    && request(x).stepId == x && ApprovedNow(s, x)
    && (x in s.journal ==>
          s.journal[x].Pending? && s.journal[x].state == NotStarted && s.journal[x].id == request(x))
  }

  lemma {:induction false} RunAppend(request: string -> Identity, s: State, before: seq<Action>, after: seq<Action>)
    requires Run(request, s, before).Some?
    ensures Run(request, s, before + after) == Run(request, Run(request, s, before).value, after)
    decreases |before|
  {
    if before == [] {
      assert before + after == after;
    } else {
      assert (before + after)[0] == before[0] && (before + after)[1..] == before[1..] + after;
      RunAppend(request, Apply(request, s, before[0]), before[1..], after);
    }
  }

  /** From the selection of a step to its dispatch, when nothing goes wrong. */
  lemma SelectedStepIsDispatched(request: string -> Identity, s: State, i: nat, status: StepStatus)
    requires s.pc.Top? && Enabled(s, Choose(i)) && DistinctIds(s.plan) && s.plan[i].status.Pending? && Terminal(status)
    requires Dispatchable(request, s, s.plan[i].id)
    ensures var x := s.plan[i].id;
      var r := Run(request, s, [Choose(i), Inspect(status), Observe, Mark(Clean, status), Dispatch]);
      && r.Some? && r.value.pc == Calling(x) && r.value.plan == SyncCurrent(s.plan, x)
      && r.value.trace == s.trace + [Dispatched(x)]
      && r.value.journal == s.journal[x := Entry.Pending(request(x), OutcomeUnknown, Boundaries(s.journal, x),
                                          if x in s.journal then s.journal[x].last else None)]
  {
    var s1 := Apply(request, s, Choose(i));
    var s2 := Apply(request, s1, Inspect(status));
    InspectMeaning(request, s1, status);
    assert s2 == s1.(pc := Cleared(s.plan[i].id));
    var s3 := Apply(request, s2, Observe);
    var s4 := Apply(request, s3, Mark(Clean, status));
    RunFive(request, s, Choose(i), Inspect(status), Observe, Mark(Clean, status), Dispatch);
  }

  lemma RunFive(request: string -> Identity, s: State, a: Action, b: Action, c: Action, d: Action, e: Action)
    requires Enabled(s, a)
    requires var s1 := Apply(request, s, a);
      Enabled(s1, b) && var s2 := Apply(request, s1, b);
      Enabled(s2, c) && var s3 := Apply(request, s2, c);
      Enabled(s3, d) && Enabled(Apply(request, s3, d), e)
    ensures Run(request, s, [a, b, c, d, e])
            == Some(Apply(request, Apply(request, Apply(request, Apply(request, Apply(request, s, a), b), c), d), e))
  {
    RunThree(request, s, a, b, c);
    var mid := Apply(request, Apply(request, Apply(request, s, a), b), c);
    assert [d, e][1..] == [e];
    RunOne(request, Apply(request, mid, d), e);
    assert [a, b, c] + [d, e] == [a, b, c, d, e];
    RunAppend(request, s, [a, b, c], [d, e]);
  }

  /** The step is ready: the first open one that can be executed. */
  ghost predicate ReadyStep(request: string -> Identity, s: State, i: nat) {
    && DistinctIds(s.plan) && i < |s.plan| && s.plan[i].status.Pending? && s.plan[i].executable
    && DependenciesSatisfied(s.plan, s.plan[i]) && (forall k :: 0 <= k < i ==> Waiting(s.plan, k))
    && Dispatchable(request, s, s.plan[i].id)
  }

  lemma ReadyStepIsDispatched(request: string -> Identity, s: State, i: nat, status: StepStatus)
    requires s.pc.Idle? && ReadyStep(request, s, i) && Terminal(status)
    ensures var x := s.plan[i].id;
      var r := Run(request, s, [Begin] + [Choose(i), Inspect(status), Observe, Mark(Clean, status), Dispatch]);
      && r.Some? && r.value.pc == Calling(x) && r.value.trace == s.trace + [Dispatched(x)]
      && DistinctIds(r.value.plan) && |r.value.plan| == |s.plan| && r.value.plan[i] == s.plan[i].(status := InProgress)
      && CanSettle(r.value.journal, request(x)) && r.value.journal[x].boundaries == Boundaries(s.journal, x)
  {
    var top := Apply(request, s, Begin);
    RunOne(request, s, Begin);
    SelectedStepIsDispatched(request, top, i, status);
    RunAppend(request, s, [Begin], [Choose(i), Inspect(status), Observe, Mark(Clean, status), Dispatch]);
  }

  /** A ready step that has not been dispatched runs through: one dispatch, the reply committed under
      the identity of the request, and the step projected as the reply says. */
  lemma ReadyStepRuns(request: string -> Identity, s: State, i: nat, r: ToolResult, canonical: bool, status: StepStatus)
    requires s.pc.Idle? && ReadyStep(request, s, i) && r.envelope.Ordinary? && Terminal(status)
    ensures var x := s.plan[i].id;
      var run := Run(request, s, ([Begin] + [Choose(i), Inspect(status), Observe, Mark(Clean, status), Dispatch])
                                 + [Receive(Replied(r), canonical, Clean, Clean, status), Conclude]);
      && run.Some? && run.value.trace == s.trace + [Dispatched(x)] + [Concluded(x, status)]
      && x in run.value.journal && run.value.journal[x].Committed? && run.value.journal[x].result == r
      && run.value.journal[x].id == request(x) && run.value.journal[x].boundaries == Boundaries(s.journal, x)
      && |run.value.plan| == |s.plan| && run.value.plan[i] == s.plan[i].(status := status)
      && run.value.pc == if status.Failed? then Idle else Top
  {
    var first := [Begin] + [Choose(i), Inspect(status), Observe, Mark(Clean, status), Dispatch];
    ReadyStepIsDispatched(request, s, i, status);
    ReplyProjects(request, Run(request, s, first).value, i, r, canonical, Clean, status);
    RunAppend(request, s, first, [Receive(Replied(r), canonical, Clean, Clean, status), Conclude]);
  }

  /** A crash between the dispatch and its reply stops every later run at this step. */
  lemma InterruptedStepStops(request: string -> Identity, s: State, i: nat, status: StepStatus)
    requires s.pc.Calling? && DistinctIds(s.plan) && i < |s.plan| && s.plan[i].id == s.pc.step && Terminal(status)
    requires IsSelection(s.plan, Selected(i)) && CanSettle(s.journal, request(s.pc.step))
    requires request(s.pc.step).stepId == s.pc.step
    ensures var r := Run(request, s, [Crash] + [Begin, Choose(i), Inspect(status)]);
      && r.Some? && r.value.pc == Idle && r.value.journal == s.journal && r.value.trace == s.trace
  {
    var s1 := Apply(request, s, Crash);
    RunOne(request, s, Crash);
    RunThree(request, s1, Begin, Choose(i), Inspect(status));
    RunAppend(request, s, [Crash], [Begin, Choose(i), Inspect(status)]);
  }
}
