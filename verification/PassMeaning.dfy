/** How a pass over a tool turn ends, read off the attempts' own results. */
module PassMeaning {
  import opened Common
  import opened Manifest
  import opened ToolProtocol
  import opened ToolDispatch

  /** The result of an attempt: the committed one, or else what its tool replies. */
  function Own(j: Journal, x: string, tools: string -> Reply): Option<ToolResult> {
    if x in j && j[x].Committed? then Some(j[x].result)
    else if tools(x).Replied? then Some(tools(x).result)
    else None
  }

  /** An ordinary result, to be handed to the model. */
  predicate Usable(j: Journal, x: string, tools: string -> Reply) {
    Own(j, x, tools).Some? && Own(j, x, tools).value.envelope.Ordinary?
  }

  /** A reply just received that requests an approval of the right run. */
  predicate Requests(t: Turn, j: Journal, x: string, tools: string -> Reply) {
    && !(x in j && j[x].Committed?) && tools(x).Replied?
    && tools(x).result.envelope.Approval? && tools(x).result.envelope.boundary.runId == t.approvalRun
  }

  /** The pass waits for an operator. */
  predicate Asks(t: Turn, j: Journal, x: string, tools: string -> Reply) {
    Requests(t, j, x, tools) && ValidBoundary(tools(x).result.envelope.boundary)
  }

  /** No reply, or an approval that cannot be recorded. */
  predicate Lost(t: Turn, j: Journal, x: string, tools: string -> Reply) {
    || Own(j, x, tools).None?
    || (Requests(t, j, x, tools) && !ValidBoundary(tools(x).result.envelope.boundary))
  }

  /** A malformed envelope, an approval of another run, or a committed one of any run. */
  predicate Refused(t: Turn, j: Journal, x: string, tools: string -> Reply) {
    Own(j, x, tools).Some? && !Usable(j, x, tools) && !Requests(t, j, x, tools)
  }

  /** Every attempt of the turn is committed or has not been started. */
  ghost predicate NothingUnknown(t: Turn, j: Journal) {
    forall x :: x in TurnSteps(t) ==> x in j && (j[x].Committed? || j[x].state == NotStarted)
  }

  lemma OneOfFour(t: Turn, j: Journal, x: string, tools: string -> Reply)
    ensures Usable(j, x, tools) || Asks(t, j, x, tools) || Lost(t, j, x, tools) || Refused(t, j, x, tools)
    ensures Usable(j, x, tools) ==> !Asks(t, j, x, tools) && !Lost(t, j, x, tools) && !Refused(t, j, x, tools)
    ensures Asks(t, j, x, tools) ==> !Lost(t, j, x, tools) && !Refused(t, j, x, tools)
    ensures Lost(t, j, x, tools) ==> !Refused(t, j, x, tools)
  {
  }

  lemma MemberMeaning(t: Turn, j: Journal, x: string, tools: string -> Reply)
    requires x in j && (j[x].Committed? || j[x].state == NotStarted)
    ensures var end := MemberEnd(t, ClassOf(j, x), tools(x));
      && (Usable(j, x, tools) ==> end == Returned(Own(j, x, tools).value))
      && (Asks(t, j, x, tools) ==> end == AwaitsApproval)
      && (Lost(t, j, x, tools) ==> end == Uncertain)
      && (Refused(t, j, x, tools) ==> end == Threw)
  {
  }

  // ---------------------------------------------------------------- one batch

  ghost predicate AllUsable(j: Journal, attempts: seq<Identity>, tools: string -> Reply) {
    forall a :: a in attempts ==> Usable(j, a.stepId, tools)
  }

  ghost predicate SomeRefused(t: Turn, j: Journal, attempts: seq<Identity>, tools: string -> Reply) {
    exists a :: a in attempts && Refused(t, j, a.stepId, tools)
  }

  ghost predicate SomeLost(t: Turn, j: Journal, attempts: seq<Identity>, tools: string -> Reply) {
    exists a :: a in attempts && Lost(t, j, a.stepId, tools)
  }

  /** One own result for each attempt, in order. */
  ghost predicate OwnResults(
      j: Journal, attempts: seq<Identity>, tools: string -> Reply, results: seq<(string, ToolResult)>) {
    && |results| == |attempts|
    && forall i :: 0 <= i < |attempts| ==>
         results[i].0 == attempts[i].stepId && Own(j, attempts[i].stepId, tools) == Some(results[i].1)
  }

  ghost predicate InTurn(t: Turn, attempts: seq<Identity>) {
    forall a :: a in attempts ==> a.stepId in TurnSteps(t)
  }

  /** A refusal comes first, then a lost reply, then a request for approval. */
  ghost function StopFor(t: Turn, j: Journal, batch: seq<Identity>, tools: string -> Reply): TurnEnd {
    if SomeRefused(t, j, batch, tools) then Error
    else if SomeLost(t, j, batch, tools) then OutcomeIsUnknown
    else NeedsApproval
  }

  lemma EndsMeaning(t: Turn, j: Journal, batch: seq<Identity>, tools: string -> Reply)
    requires NothingUnknown(t, j) && InTurn(t, batch) && Steps(batch) <= ClassesOf(t, j).Keys
    ensures var ends := BatchEnds(t, batch, ClassesOf(t, j), tools);
      && (forall i :: 0 <= i < |batch| && Usable(j, batch[i].stepId, tools) ==>
            ends[i] == Returned(Own(j, batch[i].stepId, tools).value))
      && (Threw in ends <==> SomeRefused(t, j, batch, tools))
      && (Uncertain in ends <==> SomeLost(t, j, batch, tools))
      && (AwaitsApproval in ends <==> exists a :: a in batch && Asks(t, j, a.stepId, tools))
  {
    var ends := BatchEnds(t, batch, ClassesOf(t, j), tools);
    forall i | 0 <= i < |batch|
      ensures ends[i] == MemberEnd(t, ClassOf(j, batch[i].stepId), tools(batch[i].stepId)) && ends[i] in ends
      ensures batch[i] in batch && batch[i].stepId in j
    {
      assert batch[i] in batch;
      assert batch[i].stepId in TurnSteps(t);
    }
    forall a | a in batch
      ensures Refused(t, j, a.stepId, tools) ==> Threw in ends
      ensures Lost(t, j, a.stepId, tools) ==> Uncertain in ends
      ensures Asks(t, j, a.stepId, tools) ==> AwaitsApproval in ends
    {
      var i :| 0 <= i < |batch| && batch[i] == a;
      MemberMeaning(t, j, a.stepId, tools);
    }
    forall i | 0 <= i < |batch|
      ensures ends[i] == Threw <==> Refused(t, j, batch[i].stepId, tools)
      ensures ends[i] == Uncertain <==> Lost(t, j, batch[i].stepId, tools)
      ensures ends[i] == AwaitsApproval <==> Asks(t, j, batch[i].stepId, tools)
      ensures Usable(j, batch[i].stepId, tools) ==> ends[i] == Returned(Own(j, batch[i].stepId, tools).value)
    {
      MemberMeaning(t, j, batch[i].stepId, tools);
      OneOfFour(t, j, batch[i].stepId, tools);
    }
  }

  lemma VerdictMeaning(t: Turn, j: Journal, batch: seq<Identity>, tools: string -> Reply)
    requires NothingUnknown(t, j) && InTurn(t, batch) && Steps(batch) <= ClassesOf(t, j).Keys
    ensures var verdict := BatchVerdict(BatchEnds(t, batch, ClassesOf(t, j), tools));
      if AllUsable(j, batch, tools) then verdict == Completed([]) else verdict == StopFor(t, j, batch, tools)
  {
    EndsMeaning(t, j, batch, tools);
    forall a | a in batch
      ensures Usable(j, a.stepId, tools) || Asks(t, j, a.stepId, tools) || Lost(t, j, a.stepId, tools)
              || Refused(t, j, a.stepId, tools)
      ensures Usable(j, a.stepId, tools) ==>
        !Asks(t, j, a.stepId, tools) && !Lost(t, j, a.stepId, tools) && !Refused(t, j, a.stepId, tools)
    {
      OneOfFour(t, j, a.stepId, tools);
    }
  }

  lemma {:induction false} ResultsMeaning(j: Journal, batch: seq<Identity>, ends: seq<Member>, tools: string -> Reply)
    requires |ends| == |batch|
    requires forall i :: 0 <= i < |batch| ==>
      Usable(j, batch[i].stepId, tools) && ends[i] == Returned(Own(j, batch[i].stepId, tools).value)
    ensures OwnResults(j, batch, tools, BatchResults(batch, ends))
  {
    if batch != [] { ResultsMeaning(j, batch[1..], ends[1..], tools); }
  }

  // ---------------------------------------------------------------- all batches

  /** Batch g is the first that holds something else than ordinary results. */
  ghost predicate FirstStop(j: Journal, groups: seq<seq<Identity>>, g: nat, tools: string -> Reply) {
    && g < |groups| && !AllUsable(j, groups[g], tools)
    && forall h :: 0 <= h < g ==> AllUsable(j, groups[h], tools)
  }

  lemma LaterStop(j: Journal, groups: seq<seq<Identity>>, g: nat, tools: string -> Reply)
    requires FirstStop(j, groups, g, tools) && groups != [] && AllUsable(j, groups[0], tools)
    ensures g > 0 && FirstStop(j, groups[1..], g - 1, tools) && groups[1..][g - 1] == groups[g]
  {
    assert forall h :: 0 <= h < |groups| - 1 ==> groups[1..][h] == groups[h + 1];
  }

  /** What the batches end as. */
  ghost predicate EndsBy(t: Turn, j: Journal, groups: seq<seq<Identity>>, tools: string -> Reply, end: TurnEnd) {
    && (AllUsable(j, Flatten(groups), tools) ==>
          end.Completed? && OwnResults(j, Flatten(groups), tools, end.results))
    && (forall g: nat :: FirstStop(j, groups, g, tools) ==> end == StopFor(t, j, groups[g], tools))
  }

  lemma StopsAtFirst(t: Turn, j: Journal, groups: seq<seq<Identity>>, tools: string -> Reply)
    requires groups != [] && !AllUsable(j, groups[0], tools)
    ensures EndsBy(t, j, groups, tools, StopFor(t, j, groups[0], tools))
  {
    assert Flatten(groups) == groups[0] + Flatten(groups[1..]);
    var a :| a in groups[0] && !Usable(j, a.stepId, tools);
    assert a in Flatten(groups);
  }

  lemma GoesOnToRest(t: Turn, j: Journal, groups: seq<seq<Identity>>, tools: string -> Reply, end: TurnEnd,
                     results: seq<(string, ToolResult)>)
    requires groups != [] && AllUsable(j, groups[0], tools) && OwnResults(j, groups[0], tools, results)
    requires EndsBy(t, j, groups[1..], tools, end)
    ensures EndsBy(t, j, groups, tools, if end.Completed? then Completed(results + end.results) else end)
  {
    var batch, rest := groups[0], Flatten(groups[1..]);
    assert Flatten(groups) == batch + rest;
    if AllUsable(j, batch + rest, tools) {
      assert AllUsable(j, rest, tools);
      OwnAppend(j, batch, rest, tools, results, end.results);
    }
    forall g: nat | FirstStop(j, groups, g, tools)
      ensures g > 0 && end == StopFor(t, j, groups[g], tools)
    {
      LaterStop(j, groups, g, tools);
    }
  }

  lemma OwnAppend(j: Journal, a: seq<Identity>, b: seq<Identity>, tools: string -> Reply,
                  ours: seq<(string, ToolResult)>, theirs: seq<(string, ToolResult)>)
    requires OwnResults(j, a, tools, ours) && OwnResults(j, b, tools, theirs)
    ensures OwnResults(j, a + b, tools, ours + theirs)
  {
  }

  lemma {:induction false} BatchesMeaning(
      t: Turn, j: Journal, groups: seq<seq<Identity>>, used: set<string>, tools: string -> Reply)
    requires NothingUnknown(t, j) && InTurn(t, Flatten(groups)) && Steps(Flatten(groups)) <= ClassesOf(t, j).Keys
    requires DistinctSteps(Flatten(groups)) && Steps(Flatten(groups)) !! used
    ensures EndsBy(t, j, groups, tools, BatchesEnd(t, groups, used, ClassesOf(t, j), tools))
  {
    if groups != [] {
      var batch, rest, classes := groups[0], groups[1..], ClassesOf(t, j);
      StepsAppend(batch, Flatten(rest));
      assert Flatten(groups) == batch + Flatten(rest);
      DueFresh(groups, used, classes);
      VerdictMeaning(t, j, batch, tools);
      if AllUsable(j, batch, tools) {
        UsableBatch(t, j, batch, tools);
        var more := used + Steps(ToDispatch(batch, classes));
        BatchesMeaning(t, j, rest, more, tools);
        GoesOnToRest(t, j, groups, tools, BatchesEnd(t, rest, more, classes, tools),
          BatchResults(batch, BatchEnds(t, batch, classes, tools)));
      } else {
        StopsAtFirst(t, j, groups, tools);
      }
    }
  }

  lemma UsableBatch(t: Turn, j: Journal, batch: seq<Identity>, tools: string -> Reply)
    requires NothingUnknown(t, j) && InTurn(t, batch) && Steps(batch) <= ClassesOf(t, j).Keys
    requires AllUsable(j, batch, tools)
    ensures OwnResults(j, batch, tools, BatchResults(batch, BatchEnds(t, batch, ClassesOf(t, j), tools)))
  {
    EndsMeaning(t, j, batch, tools);
    assert forall i :: 0 <= i < |batch| ==> batch[i] in batch;
    ResultsMeaning(j, batch, BatchEnds(t, batch, ClassesOf(t, j), tools), tools);
  }

  lemma {:induction false} StopExists(j: Journal, groups: seq<seq<Identity>>, tools: string -> Reply) returns (g: nat)
    requires !AllUsable(j, Flatten(groups), tools)
    ensures FirstStop(j, groups, g, tools)
  {
    if !AllUsable(j, groups[0], tools) {
      g := 0;
    } else {
      assert Flatten(groups) == groups[0] + Flatten(groups[1..]);
      g := StopExists(j, groups[1..], tools);
      assert forall h :: 0 < h < |groups| ==> groups[h] == groups[1..][h - 1];
      g := g + 1;
    }
  }

  /** A pass over a turn with nothing unknown completes if and only if each attempt's own result is an
      ordinary one, and then returns exactly those, in order.  Otherwise the first batch with another
      result ends it, with an error before a lost reply before a request for approval. */
  lemma PassEndsAs(t: Turn, j: Journal, tools: string -> Reply)
    requires WellFormed(t) && NothingUnknown(t, j)
    ensures var end := TurnOutcome(t, j, tools);
      && (end.Completed? <==> AllUsable(j, Attempts(t), tools))
      && (end.Completed? ==> OwnResults(j, Attempts(t), tools, end.results))
      && (forall g: nat :: FirstStop(j, t.groups, g, tools) ==> end == StopFor(t, j, t.groups[g], tools))
  {
    BatchesMeaning(t, j, t.groups, {}, tools);
    assert !UnsafeTurn(t, j);
    if !AllUsable(j, Attempts(t), tools) {
      var g := StopExists(j, t.groups, tools);
    }
  }

  /** With an attempt unknown or missing the pass ends as unknown. */
  lemma UnknownPassEnds(t: Turn, j: Journal, tools: string -> Reply)
    requires !NothingUnknown(t, j)
    ensures TurnOutcome(t, j, tools) == OutcomeIsUnknown
  {
    var x :| x in TurnSteps(t) && !(x in j && (j[x].Committed? || j[x].state == NotStarted));
    assert Unsafe(ClassOf(j, x));
  }

  // ---------------------------------------------------------------- the same in the step relation

  /** What the arrival of a reply does, when its journal write succeeds. */
  lemma ArrivalMeaning(t: Turn, j: Journal, x: string, r: ToolResult)
    requires x in j && CanSettle(j, j[x].id) && Keyed(j)
    ensures var (after, m) := Settlement(t, j, x, Replied(r), Clean);
      && (r.envelope.Ordinary? ==> m == Returned(r) && IsCommitted(after, x) && after[x].result == r)
      && (r.envelope.Malformed? ==> m == Threw && IsCommitted(after, x) && after[x].result == r)
      && (r.envelope.Approval? ==>
            if r.envelope.boundary.runId != t.approvalRun then
              m == Threw && IsCommitted(after, x) && after[x].result == r
            else if ValidBoundary(r.envelope.boundary) then
              m == AwaitsApproval && after[x].Pending? && after[x].state == NotStarted
              && after[x].last == Some(r.envelope.boundary) && after[x].boundaries == j[x].boundaries + 1
            else m == Uncertain && after == j)
  {
  }

  /** The runner's members are what the batch ended with. */
  ghost predicate EndedAs(me: Runner, batch: seq<Identity>, ends: seq<Member>) {
    && |ends| == |batch| && me.members.Keys == Steps(batch)
    && forall i :: 0 <= i < |batch| ==> me.members[batch[i].stepId] == ends[i]
  }

  /** Joining a batch that is over gives the runner the verdict of the batch, and its results. */
  lemma JoinAgrees(t: Turn, me: Runner, ends: seq<Member>)
    requires me.group < |t.groups| && EndedAs(me, t.groups[me.group], ends)
    ensures var after := JoinRunner(t, me);
      match BatchVerdict(ends)
      case Error => after == me.(outcome := Failed)
      case OutcomeIsUnknown => after == me.(outcome := StoppedUnknown)
      case NeedsApproval => after == me.(outcome := StoppedApproval)
      case Completed(_) =>
        && after.group == me.group + 1 && !after.marked && after.members == map[] && after.classes == me.classes
        && after.results == me.results + BatchResults(t.groups[me.group], ends)
        && after.outcome == if after.group == |t.groups| then Finished else Active
  {
    var batch := t.groups[me.group];
    MembersAre(me, batch, ends, Threw);
    MembersAre(me, batch, ends, Uncertain);
    MembersAre(me, batch, ends, AwaitsApproval);
    ResultsAgree(batch, me.members, ends);
  }

  lemma MembersAre(me: Runner, batch: seq<Identity>, ends: seq<Member>, m: Member)
    requires EndedAs(me, batch, ends)
    ensures AnyMember(me, m) <==> m in ends
  {
    if x :| x in me.members && me.members[x] == m {
      var a :| a in batch && a.stepId == x;
      var i :| 0 <= i < |batch| && batch[i] == a;
      assert ends[i] == m;
    }
    if i :| 0 <= i < |ends| && ends[i] == m { assert batch[i] in batch && batch[i].stepId in me.members; }
  }

  lemma {:induction false} ResultsAgree(batch: seq<Identity>, members: map<string, Member>, ends: seq<Member>)
    requires |ends| == |batch|
    requires forall i :: 0 <= i < |batch| ==> batch[i].stepId in members && members[batch[i].stepId] == ends[i]
    ensures ResultsOf(batch, members) == BatchResults(batch, ends)
  {
    if batch != [] { ResultsAgree(batch[1..], members, ends[1..]); }
  }

  /** Entering a batch replays what is committed and leaves the rest to be called. */
  lemma EnteringMeans(t: Turn, me: Runner, j: Journal, tools: string -> Reply, x: string)
    requires me.group < |t.groups| && x in Steps(t.groups[me.group]) && me.classes == ClassesOf(t, j)
    requires x in TurnSteps(t) && x in j && (j[x].Committed? || j[x].state == NotStarted)
    ensures var m := Enter(t, me).members;
      && x in m
      && (j[x].Pending? ==> m[x] == ToCall)
      && (j[x].Committed? ==> m[x] == if j[x].result.envelope.Ordinary? then Returned(j[x].result) else Threw)
  {
  }

  /** Every reply is ordinary and every journal write of it succeeds. */
  predicate Smooth(a: Action) {
    a.Receive? ==> a.reply.Replied? && a.reply.result.envelope.Ordinary? && a.write == Clean
  }

  predicate Fine(m: Member) { m == ToCall || m == InFlight || (m.Returned? && m.result.envelope.Ordinary?) }

  predicate AllFine(members: map<string, Member>) { forall x :: x in members ==> Fine(members[x]) }

  ghost predicate OrdinaryOnFile(t: Turn, j: Journal) {
    forall x :: x in TurnSteps(t) && IsCommitted(j, x) ==> j[x].result.envelope.Ordinary?
  }

  /** Members are still to be called, or have returned their ordinary results. */
  ghost predicate Undisturbed(t: Turn, s: State) {
    OrdinaryOnFile(t, s.journal) && forall r :: r in s.runners ==> AllFine(s.runners[r].members)
  }

  lemma SmoothJournal(t: Turn, s: State, a: Action)
    requires Inv(t, s) && Enabled(t, s, a) && Smooth(a) && OrdinaryOnFile(t, s.journal)
    ensures OrdinaryOnFile(t, Apply(t, s, a).journal)
  {
    var s' := Apply(t, s, a);
    forall x | x in TurnSteps(t) && IsCommitted(s'.journal, x)
      ensures s'.journal[x].result.envelope.Ordinary?
    {
      if IsCommitted(s.journal, x) { CommittedStep(t, s, a, x); } else { CommitsComeFromReplies(t, s, a, x); }
    }
  }

  lemma SmoothReceive(t: Turn, s: State, r: nat, x: string, reply: Reply, write: Write)
    requires OwnersOk(s) && Keyed(s.journal)
    requires Enabled(t, s, Receive(r, x, reply, write)) && Smooth(Receive(r, x, reply, write))
    requires AllFine(s.runners[r].members)
    ensures AllFine(Apply(t, s, Receive(r, x, reply, write)).runners[r].members)
  {
    assert Owns(s.runners, r, x);
    OwnedIsUnknown(s, r, x);
    ArrivalMeaning(t, s.journal, x, reply.result);
  }

  lemma SmoothMark(t: Turn, s: State, r: nat, write: Write)
    requires Enabled(t, s, Mark(r, write)) && RunnerOk(t, s.journal, s.runners[r]) && OrdinaryOnFile(t, s.journal)
    requires AllFine(s.runners[r].members)
    ensures AllFine(Apply(t, s, Mark(r, write)).runners[r].members)
  {
    EnteredFine(t, s.journal, s.runners[r]);
    MarkEnters(t, s, r, write);
  }

  /** Marking enters the batch or fails. */
  lemma MarkEnters(t: Turn, s: State, r: nat, write: Write)
    requires Enabled(t, s, Mark(r, write))
    ensures var me, after := s.runners[r], Apply(t, s, Mark(r, write)).runners[r];
      after.members == me.members || after.members == Enter(t, me).members
  {
  }

  lemma EnteredFine(t: Turn, j: Journal, me: Runner)
    requires RunnerOk(t, j, me) && OrdinaryOnFile(t, j) && me.group < |t.groups|
    ensures AllFine(Enter(t, me).members)
  {
    StepsOfFlatten(t.groups, me.group);
    forall x | x in Steps(t.groups[me.group]) && x in me.classes && me.classes[x].Done?
      ensures me.classes[x].result.envelope.Ordinary?
    {
      assert IsCommitted(j, x);
    }
  }

  lemma RunnerJoins(t: Turn, me: Runner)
    requires me.group < |t.groups| && AllFine(me.members)
    ensures AllFine(JoinRunner(t, me).members)
  {
  }

  lemma OtherRunners(t: Turn, s: State, a: Action, r: nat)
    requires Enabled(t, s, a) && (a.Mark? || a.Call? || a.Receive? || a.Join?) && a.r == r
    ensures Apply(t, s, a).runners.Keys == s.runners.Keys
    ensures forall q :: q in s.runners && q != r ==> Apply(t, s, a).runners[q] == s.runners[q]
  {
  }

  /** The runner that acts. */
  lemma SmoothActor(t: Turn, s: State, a: Action, r: nat)
    requires OwnersOk(s) && Keyed(s.journal) && Enabled(t, s, a) && Smooth(a)
    requires (a.Mark? || a.Call? || a.Receive? || a.Join?) && a.r == r
    requires RunnerOk(t, s.journal, s.runners[r]) && OrdinaryOnFile(t, s.journal) && AllFine(s.runners[r].members)
    ensures r in Apply(t, s, a).runners && AllFine(Apply(t, s, a).runners[r].members)
  {
    match a
    case Mark(_, write) => SmoothMark(t, s, r, write);
    case Receive(_, x, reply, write) => SmoothReceive(t, s, r, x, reply, write);
    case Join(_) => RunnerJoins(t, s.runners[r]);
    case Call(_, x) =>
  }

  lemma SmoothStep(t: Turn, s: State, a: Action)
    requires Inv(t, s) && Enabled(t, s, a) && Smooth(a) && Undisturbed(t, s)
    ensures Undisturbed(t, Apply(t, s, a))
  {
    SmoothJournal(t, s, a);
    if a.Mark? || a.Call? || a.Receive? || a.Join? {
      SmoothActor(t, s, a, a.r);
      OtherRunners(t, s, a, a.r);
    }
  }

  /** In a run without a lost or refused reply no member of any runner ever throws, is uncertain or
      waits for an approval: each one called returns its ordinary result. */
  lemma {:induction false} SmoothRunsReturn(t: Turn, s: State, actions: seq<Action>)
    requires Inv(t, s) && Undisturbed(t, s) && Run(t, s, actions).Some?
    requires forall a :: a in actions ==> Smooth(a)
    ensures Undisturbed(t, Run(t, s, actions).value)
    decreases |actions|
  {
    if actions != [] {
      assert actions[0] in actions;
      StepKeepsInv(t, s, actions[0]);
      SmoothStep(t, s, actions[0]);
      SmoothRunsReturn(t, Apply(t, s, actions[0]), actions[1..]);
    }
  }
}
