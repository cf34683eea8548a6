/** Dispatching the tool calls of one assistant turn, as a step relation.

    Any number of runners work on the same turn over one journal: a first run, its
    restarts after a crash, and processes that started from a stale classification.
    A runner that fails leaves the siblings of the failed call running behind it.
    Only the journal and the calls already made survive a crash. */
module ToolProtocol {
  import opened Common
  import opened Manifest

  /** A turn: its attempts in batches, and the run whose approvals are accepted. */
  datatype Turn = Turn(groups: seq<seq<Identity>>, approvalRun: string)

  /** One tool use inside the batch being executed. */
  datatype Member =
    | ToCall
    | InFlight
    | Returned(result: ToolResult)
    | AwaitsApproval
    | Uncertain
    | Threw

  datatype Outcome = Active | Finished | StoppedUnknown | StoppedApproval | Failed

  datatype Runner = Runner(
    classes: map<string, Classification>,
    group: nat,
    marked: bool,
    members: map<string, Member>,
    results: seq<(string, ToolResult)>,
    outcome: Outcome)

  datatype State = State(journal: Journal, calls: multiset<string>, runners: map<nat, Runner>)

  datatype Action =
    | Observe
    | Start(r: nat)
    | Mark(r: nat, write: Write)
    | Call(r: nat, step: string)
    | Receive(r: nat, step: string, reply: Reply, write: Write)
    | Join(r: nat)
    | Crash(lost: set<nat>)

  // ---------------------------------------------------------------- the turn

  function Steps(attempts: seq<Identity>): set<string> { set a | a in attempts :: a.stepId }

  function Attempts(t: Turn): seq<Identity> { Flatten(t.groups) }

  function TurnSteps(t: Turn): set<string> { Steps(Attempts(t)) }

  /** Step ids are distinct within a turn: lookups are by id. */
  predicate WellFormed(t: Turn) { DistinctSteps(Attempts(t)) }

  predicate Unsafe(c: Classification) { c.Missing? || (c.Open? && c.state == OutcomeUnknown) }

  predicate UnsafeTurn(t: Turn, j: Journal) {
    exists s :: s in TurnSteps(t) && Unsafe(ClassOf(j, s))
  }

  // ---------------------------------------------------------------- one step

  /** A committed reply that parses as an approval is refused at replay. */
  function Replay(result: ToolResult): Member {
    if result.envelope.Ordinary? then Returned(result) else Threw
  }

  function InitialMember(c: Classification): Member {
    if c.Done? then Replay(c.result) else ToCall
  }

  function ToDispatch(attempts: seq<Identity>, classes: map<string, Classification>): seq<Identity> {
    if attempts == [] then []
    else
      (if attempts[0].stepId in classes && classes[attempts[0].stepId] == Open(NotStarted) then [attempts[0]] else [])
      + ToDispatch(attempts[1..], classes)
  }

  predicate AcceptedApproval(t: Turn, r: ToolResult) {
    r.envelope.Approval? && r.envelope.boundary.runId == t.approvalRun
  }

  /** Accepted, but the reset refuses to record the boundary. */
  predicate Unrecordable(t: Turn, r: ToolResult) {
    AcceptedApproval(t, r) && !ValidBoundary(r.envelope.boundary)
  }

  function StartRunner(t: Turn, j: Journal): Runner {
    Runner(map s | s in TurnSteps(t) :: ClassOf(j, s), 0, false, map[], [],
           if UnsafeTurn(t, j) then StoppedUnknown else if |t.groups| == 0 then Finished else Active)
  }

  predicate IsLive(r: Runner, step: string) {
    step in r.members && (r.members[step].ToCall? || r.members[step].InFlight?)
  }

  predicate AnyMember(r: Runner, m: Member) { exists s :: s in r.members && r.members[s] == m }

  predicate AllSettled(r: Runner) { forall s :: s in r.members ==> !IsLive(r, s) }

  function ResultsOf(attempts: seq<Identity>, members: map<string, Member>): seq<(string, ToolResult)> {
    if attempts == [] then []
    else
      (if attempts[0].stepId in members && members[attempts[0].stepId].Returned?
       then [(attempts[0].stepId, members[attempts[0].stepId].result)] else [])
      + ResultsOf(attempts[1..], members)
  }

  predicate Enabled(t: Turn, s: State, a: Action) {
    match a
    case Observe => AllMatch(s.journal, Attempts(t))
    case Start(r) => r !in s.runners && AllMatch(s.journal, Attempts(t))
    case Mark(r, _) =>
      r in s.runners && s.runners[r].outcome.Active? && !s.runners[r].marked && s.runners[r].group < |t.groups|
    case Call(r, step) => r in s.runners && step in s.runners[r].members && s.runners[r].members[step] == ToCall
    case Receive(r, step, _, _) =>
      r in s.runners && step in s.runners[r].members && s.runners[r].members[step] == InFlight
    case Join(r) =>
      r in s.runners && s.runners[r].outcome.Active? && s.runners[r].marked && s.runners[r].group < |t.groups|
      && (AnyMember(s.runners[r], Threw) || AllSettled(s.runners[r]))
    case Crash(_) => true
  }

  function MarkStep(t: Turn, s: State, r: nat, write: Write): State
    requires Enabled(t, s, Mark(r, write))
  {
    var me := s.runners[r];
    var batch := t.groups[me.group];
    var due := ToDispatch(batch, me.classes);
    var entered := me.(marked := true,
      members := map x | x in Steps(batch) :: InitialMember(if x in me.classes then me.classes[x] else Missing));
    var failed := me.(outcome := Failed);
    if due == [] then s.(runners := s.runners[r := entered])
    else if !CanMark(s.journal, due) || write == LostWrite then s.(runners := s.runners[r := failed])
    else if write == LateError then s.(journal := MarkAll(s.journal, due), runners := s.runners[r := failed])
    else s.(journal := MarkAll(s.journal, due), runners := s.runners[r := entered])
  }

  /** How the call ends for its runner, and what the journal keeps of it. */
  function Settlement(t: Turn, j: Journal, step: string, reply: Reply, write: Write): (Journal, Member)
  {
    if step !in j || !CanSettle(j, j[step].id) then (j, Uncertain)
    else if reply.TransportError? || Unrecordable(t, reply.result) then (j, Uncertain)
    else
      var after := if AcceptedApproval(t, reply.result) then ResetOne(j, j[step].id, reply.result.envelope.boundary)
                   else CommitOne(j, j[step].id, reply.result);
      if write == LostWrite then (j, Uncertain)
      else if write == LateError then (after, Uncertain)
      else if AcceptedApproval(t, reply.result) then (after, AwaitsApproval)
      else (after, Replay(reply.result))
  }

  function JoinRunner(t: Turn, me: Runner): Runner
    requires me.group < |t.groups|
  {
    if AnyMember(me, Threw) then me.(outcome := Failed)
    else if AnyMember(me, Uncertain) then me.(outcome := StoppedUnknown)
    else if AnyMember(me, AwaitsApproval) then me.(outcome := StoppedApproval)
    else me.(group := me.group + 1, marked := false, members := map[],
             results := me.results + ResultsOf(t.groups[me.group], me.members),
             outcome := if me.group + 1 == |t.groups| then Finished else Active)
  }

  function Apply(t: Turn, s: State, a: Action): State
    requires Enabled(t, s, a)
  {
    match a
    case Observe => s.(journal := ObserveAll(s.journal, Attempts(t)))
    case Start(r) => s.(runners := s.runners[r := StartRunner(t, s.journal)])
    case Mark(r, write) => MarkStep(t, s, r, write)
    case Call(r, step) =>
      var me := s.runners[r];
      s.(calls := s.calls + multiset{step}, runners := s.runners[r := me.(members := me.members[step := InFlight])])
    case Receive(r, step, reply, write) =>
      var me := s.runners[r];
      var (after, m) := Settlement(t, s.journal, step, reply, write);
      s.(journal := after, runners := s.runners[r := me.(members := me.members[step := m])])
    case Join(r) => s.(runners := s.runners[r := JoinRunner(t, s.runners[r])])
    case Crash(lost) => s.(runners := s.runners - lost)
  }

  /** The state after a sequence of steps; None when one of them is not enabled. */
  function Run(t: Turn, s: State, actions: seq<Action>): Option<State>
    decreases |actions|
  {
    if actions == [] then Some(s)
    else if !Enabled(t, s, actions[0]) then None
    else Run(t, Apply(t, s, actions[0]), actions[1..])
  }

  /** Nothing of this turn has been dispatched yet. */
  ghost predicate Initial(t: Turn, s: State) {
    && WellFormed(t)
    && s.calls == multiset{} && s.runners == map[]
    && AllMatch(s.journal, Attempts(t)) && Keyed(s.journal)
    && forall x :: x in TurnSteps(t) && x in s.journal ==>
         s.journal[x].Pending? && s.journal[x].state == NotStarted && s.journal[x].boundaries == 0
  }

  // ---------------------------------------------------------------- the invariant

  predicate IsCommitted(j: Journal, step: string) { step in j && j[step].Committed? }

  /** The step has left not_started at some time. */
  predicate Touched(j: Journal, step: string) { Dispatched(j, step) || Boundaries(j, step) > 0 }

  ghost predicate JournalOk(t: Turn, s: State) {
    && AllMatch(s.journal, Attempts(t)) && Keyed(s.journal)
    && (forall x :: x in TurnSteps(t) ==>
          s.calls[x] <= Boundaries(s.journal, x) + if Dispatched(s.journal, x) then 1 else 0)
  }

  /** Runner r owns step x: its call is due or in flight. */
  predicate Owns(runners: map<nat, Runner>, r: nat, x: string) { r in runners && IsLive(runners[r], x) }

  predicate Due(runners: map<nat, Runner>, r: nat, x: string) {
    r in runners && x in runners[r].members && runners[r].members[x] == ToCall
  }

  predicate OwnedEntry(j: Journal, classes: map<string, Classification>, x: string) {
    x in j && j[x].Pending? && j[x].state == OutcomeUnknown && x in classes && classes[x] == Open(NotStarted)
  }

  ghost predicate Exclusive(runners: map<nat, Runner>) {
    forall r, q, x :: Owns(runners, r, x) && Owns(runners, q, x) ==> r == q
  }

  ghost predicate OwnedUnknown(j: Journal, runners: map<nat, Runner>) {
    forall r, x :: Owns(runners, r, x) ==> OwnedEntry(j, runners[r].classes, x)
  }

  ghost predicate DueUncounted(j: Journal, calls: multiset<string>, runners: map<nat, Runner>) {
    forall r, x :: Due(runners, r, x) ==> calls[x] <= Boundaries(j, x)
  }

  /** An owned step is outcome_unknown in the journal, no other runner works on it, and a call
      still due has not been counted. */
  ghost predicate OwnersOk(s: State) {
    Exclusive(s.runners) && OwnedUnknown(s.journal, s.runners) && DueUncounted(s.journal, s.calls, s.runners)
  }

  ghost predicate GroupCommitted(j: Journal, group: seq<Identity>) {
    forall x :: x in Steps(group) ==> IsCommitted(j, x)
  }

  function CommittedResults(j: Journal, attempts: seq<Identity>): seq<(string, ToolResult)> {
    if attempts == [] then []
    else
      (if IsCommitted(j, attempts[0].stepId) then [(attempts[0].stepId, j[attempts[0].stepId].result)] else [])
      + CommittedResults(j, attempts[1..])
  }

  ghost predicate RunnerOk(t: Turn, j: Journal, r: Runner) {
    && r.group <= |t.groups|
    && (r.marked ==> r.group < |t.groups| && r.members.Keys == Steps(t.groups[r.group]))
    && r.classes.Keys == TurnSteps(t)
    && (forall x :: x in r.classes && r.classes[x].Done? ==> IsCommitted(j, x) && j[x].result == r.classes[x].result)
    && (r.outcome == Active ==> forall x :: x in r.classes ==> !Unsafe(r.classes[x]))
    && (forall g :: 0 <= g < r.group ==> GroupCommitted(j, t.groups[g]))
    && (forall x :: x in r.members && r.members[x].Returned? ==>
          IsCommitted(j, x) && j[x].result == r.members[x].result)
    && r.results == CommittedResults(j, Flatten(t.groups[..r.group]))
    && (r.outcome == Finished ==> r.group == |t.groups|)
    && (!r.marked ==> r.members == map[])
  }

  ghost predicate RunnersOk(t: Turn, s: State) {
    forall r :: r in s.runners ==> RunnerOk(t, s.journal, s.runners[r])
  }

  /** No batch is touched before every earlier batch is committed. */
  ghost predicate Barrier(t: Turn, j: Journal) {
    forall g, h, x :: 0 <= g < h < |t.groups| && x in Steps(t.groups[h]) && Touched(j, x) ==>
                        GroupCommitted(j, t.groups[g])
  }

  ghost predicate Inv(t: Turn, s: State) {
    WellFormed(t) && JournalOk(t, s) && OwnersOk(s) && RunnersOk(t, s) && Barrier(t, s.journal)
  }

  // ---------------------------------------------------------------- frame facts

  /** Committed entries are final. */
  ghost predicate Grows(j: Journal, j': Journal) {
    forall x :: IsCommitted(j, x) ==> x in j' && j'[x] == j[x]
  }

  lemma StepsAppend(xs: seq<Identity>, ys: seq<Identity>)
    ensures Steps(xs + ys) == Steps(xs) + Steps(ys)
  {
  }

  lemma {:induction false} StepsOfFlatten(groups: seq<seq<Identity>>, g: nat)
    requires g < |groups|
    ensures Steps(groups[g]) <= Steps(Flatten(groups))
    ensures forall a :: a in groups[g] ==> a in Flatten(groups)
  {
    StepsAppend(groups[0], Flatten(groups[1..]));
    if g > 0 {
      StepsOfFlatten(groups[1..], g - 1);
    }
  }

  lemma {:induction false} StepHasGroup(groups: seq<seq<Identity>>, x: string) returns (g: nat)
    requires x in Steps(Flatten(groups))
    ensures g < |groups| && x in Steps(groups[g])
  {
    StepsAppend(groups[0], Flatten(groups[1..]));
    if x in Steps(groups[0]) {
      g := 0;
    } else {
      g := StepHasGroup(groups[1..], x);
      g := g + 1;
    }
  }

  lemma {:induction false} GroupsDisjoint(groups: seq<seq<Identity>>, g: nat, h: nat)
    requires DistinctSteps(Flatten(groups)) && g < h < |groups|
    ensures Steps(groups[g]) !! Steps(groups[h])
  {
    var flat, rest := Flatten(groups), Flatten(groups[1..]);
    assert forall i :: 0 <= i < |rest| ==> rest[i] == flat[|groups[0]| + i];
    if g == 0 {
      StepsOfFlatten(groups[1..], h - 1);
      forall i, k | 0 <= i < |groups[0]| && 0 <= k < |rest|
        ensures groups[0][i].stepId != rest[k].stepId
      {
        assert flat[i] == groups[0][i] && flat[|groups[0]| + k] == rest[k];
      }
    } else {
      GroupsDisjoint(groups[1..], g - 1, h - 1);
    }
  }

  lemma {:induction false} DueSteps(attempts: seq<Identity>, classes: map<string, Classification>)
    ensures forall x :: x in Steps(ToDispatch(attempts, classes)) <==>
                        x in Steps(attempts) && x in classes && classes[x] == Open(NotStarted)
    ensures forall a :: a in ToDispatch(attempts, classes) ==> a in attempts
  {
    if attempts != [] {
      var head := if attempts[0].stepId in classes && classes[attempts[0].stepId] == Open(NotStarted)
                  then [attempts[0]] else [];
      DueSteps(attempts[1..], classes);
      StepsAppend(head, ToDispatch(attempts[1..], classes));
      StepsAppend([attempts[0]], attempts[1..]);
      assert attempts == [attempts[0]] + attempts[1..];
    }
  }

  lemma MarkEffect(j: Journal, due: seq<Identity>)
    requires CanMark(j, due)
    ensures MarkAll(j, due).Keys == j.Keys
    ensures forall x :: x in j ==> MarkAll(j, due)[x] ==
                                   (if x in Steps(due) then j[x].(state := OutcomeUnknown) else j[x])
    ensures forall x :: x in Steps(due) ==> x in j && j[x].Pending? && j[x].state == NotStarted
  {
    forall x | x in j
      ensures MarkAll(j, due)[x] == if x in Steps(due) then j[x].(state := OutcomeUnknown) else j[x]
    {
      assert HasStep(due, x) <==> x in Steps(due);
      if a :| a in due && a.stepId == x {
        assert CanMarkOne(j, a);
      }
    }
  }

  lemma {:induction false} CommittedResultsStable(j: Journal, j': Journal, attempts: seq<Identity>)
    requires Grows(j, j')
    requires forall x :: x in Steps(attempts) ==> IsCommitted(j, x)
    ensures CommittedResults(j', attempts) == CommittedResults(j, attempts)
  {
    if attempts != [] {
      assert attempts[0].stepId in Steps(attempts);
      assert Steps(attempts[1..]) <= Steps(attempts);
      CommittedResultsStable(j, j', attempts[1..]);
    }
  }

  lemma {:induction false} CommittedPrefix(j: Journal, groups: seq<seq<Identity>>, n: nat)
    requires n <= |groups|
    requires forall g :: 0 <= g < n ==> GroupCommitted(j, groups[g])
    ensures forall x :: x in Steps(Flatten(groups[..n])) ==> IsCommitted(j, x)
  {
    forall x | x in Steps(Flatten(groups[..n]))
      ensures IsCommitted(j, x)
    {
      var g := StepHasGroup(groups[..n], x);
      assert groups[..n][g] == groups[g];
    }
  }

  lemma RunnerSurvivesGrowth(t: Turn, j: Journal, j': Journal, r: Runner)
    requires RunnerOk(t, j, r) && Grows(j, j')
    ensures RunnerOk(t, j', r)
  {
    CommittedPrefix(j, t.groups, r.group);
    CommittedResultsStable(j, j', Flatten(t.groups[..r.group]));
    forall g | 0 <= g < r.group
      ensures GroupCommitted(j', t.groups[g])
    {
      assert GroupCommitted(j, t.groups[g]);
    }
  }

  lemma RunnersSurviveGrowth(t: Turn, s: State, j': Journal)
    requires RunnersOk(t, s) && Grows(s.journal, j')
    ensures forall r :: r in s.runners ==> RunnerOk(t, j', s.runners[r])
  {
    forall r | r in s.runners
      ensures RunnerOk(t, j', s.runners[r])
    {
      RunnerSurvivesGrowth(t, s.journal, j', s.runners[r]);
    }
  }

  lemma BarrierSurvives(t: Turn, j: Journal, j': Journal)
    requires Barrier(t, j) && Grows(j, j')
    requires forall x :: x in TurnSteps(t) && Touched(j', x) ==> Touched(j, x)
    ensures Barrier(t, j')
  {
    forall g, h, x | 0 <= g < h < |t.groups| && x in Steps(t.groups[h]) && Touched(j', x)
      ensures GroupCommitted(j', t.groups[g])
    {
      StepsOfFlatten(t.groups, h);
      assert GroupCommitted(j, t.groups[g]);
    }
  }

  // ---------------------------------------------------------------- every step keeps the invariant

  lemma OwnersSurvive(s: State, j': Journal)
    requires OwnersOk(s)
    requires forall x :: x in s.journal ==> x in j' && j'[x] == s.journal[x]
    ensures OwnersOk(s.(journal := j'))
  {
    forall r, x | Due(s.runners, r, x)
      ensures s.calls[x] <= Boundaries(j', x)
    {
      assert Owns(s.runners, r, x);
      assert OwnedEntry(s.journal, s.runners[r].classes, x);
    }
  }

  lemma ObserveKeeps(t: Turn, s: State)
    requires Inv(t, s) && Enabled(t, s, Observe)
    ensures Inv(t, Apply(t, s, Observe))
  {
    var j' := ObserveAll(s.journal, Attempts(t));
    ObserveAllEntries(s.journal, Attempts(t));
    ObservedMatch(s.journal, Attempts(t));
    ObservedKeyed(s.journal, Attempts(t));
    RunnersSurviveGrowth(t, s, j');
    BarrierSurvives(t, s.journal, j');
    OwnersSurvive(s, j');
  }

  lemma {:induction false} ObservedKeyed(j: Journal, attempts: seq<Identity>)
    requires Keyed(j)
    ensures Keyed(ObserveAll(j, attempts))
  {
    if attempts != [] {
      ObservedKeyed(j, attempts[..|attempts| - 1]);
    }
  }

  lemma {:induction false} ObservedMatch(j: Journal, attempts: seq<Identity>)
    requires AllMatch(j, attempts) && DistinctSteps(attempts)
    ensures AllMatch(ObserveAll(j, attempts), attempts)
  {
    if attempts != [] {
      var front, last := attempts[..|attempts| - 1], attempts[|attempts| - 1];
      assert attempts == front + [last];
      ObservedMatch(j, front);
      ObserveAllEntries(j, front);
      forall a | a in attempts
        ensures Matches(ObserveAll(j, attempts), a)
      {
        if a != last {
          var i :| 0 <= i < |attempts| && attempts[i] == a;
          assert a in front;
        } else {
          assert Matches(j, last);
          assert !HasStep(front, last.stepId);
        }
      }
    }
  }

  /** Changing one runner keeps the ownership facts when it gains no live member. */
  lemma OwnersOfReplaced(s: State, r: nat, me: Runner)
    requires OwnersOk(s)
    requires forall x :: IsLive(me, x) ==> Owns(s.runners, r, x) && s.runners[r].classes == me.classes
    requires forall x :: x in me.members && me.members[x] == ToCall ==> Due(s.runners, r, x)
    ensures OwnersOk(s.(runners := s.runners[r := me]))
  {
    var after := s.runners[r := me];
    assert forall q, x :: Owns(after, q, x) ==> Owns(s.runners, q, x);
    assert forall q, x :: Due(after, q, x) ==> Due(s.runners, q, x);
  }

  lemma ReplaceRunner(t: Turn, s: State, r: nat, me: Runner)
    requires Inv(t, s) && RunnerOk(t, s.journal, me)
    requires forall x :: IsLive(me, x) ==> Owns(s.runners, r, x) && s.runners[r].classes == me.classes
    requires forall x :: x in me.members && me.members[x] == ToCall ==> Due(s.runners, r, x)
    ensures Inv(t, s.(runners := s.runners[r := me]))
  {
    OwnersOfReplaced(s, r, me);
  }

  lemma StartedOk(t: Turn, j: Journal)
    ensures RunnerOk(t, j, StartRunner(t, j))
  {
    assert t.groups[..0] == [];
  }

  lemma StartKeeps(t: Turn, s: State, r: nat)
    requires Inv(t, s) && Enabled(t, s, Start(r))
    ensures Inv(t, Apply(t, s, Start(r)))
  {
    StartedOk(t, s.journal);
    ReplaceRunner(t, s, r, StartRunner(t, s.journal));
  }

  lemma CrashKeeps(t: Turn, s: State, lost: set<nat>)
    requires Inv(t, s)
    ensures Inv(t, Apply(t, s, Crash(lost)))
  {
    var s' := Apply(t, s, Crash(lost));
    assert forall q :: q in s'.runners ==> q in s.runners && s'.runners[q] == s.runners[q];
    FewerRunners(t, s, s'.runners);
    assert JournalOk(t, s') && Barrier(t, s'.journal);
  }

  lemma FewerRunners(t: Turn, s: State, after: map<nat, Runner>)
    requires OwnersOk(s) && RunnersOk(t, s) && forall q :: q in after ==> q in s.runners && after[q] == s.runners[q]
    ensures OwnersOk(s.(runners := after)) && RunnersOk(t, s.(runners := after))
  {
    assert forall q, x :: Owns(after, q, x) ==> Owns(s.runners, q, x);
    assert forall q, x :: Due(after, q, x) ==> Due(s.runners, q, x);
  }

  /** A member's own status is free to change as long as it does not claim a result. */
  lemma MemberChanges(t: Turn, j: Journal, me: Runner, x: string, m: Member)
    requires RunnerOk(t, j, me) && x in me.members
    requires m.Returned? ==> IsCommitted(j, x) && j[x].result == m.result
    ensures RunnerOk(t, j, me.(members := me.members[x := m]))
  {
    var after := me.members[x := m];
    assert after.Keys == me.members.Keys;
  }

  lemma CalledJournalOk(t: Turn, s: State, r: nat, step: string)
    requires JournalOk(t, s) && OwnersOk(s) && Due(s.runners, r, step)
    ensures JournalOk(t, s.(calls := s.calls + multiset{step}))
  {
    assert Owns(s.runners, r, step) && OwnedEntry(s.journal, s.runners[r].classes, step);
  }

  lemma CalledOwners(s: State, r: nat, step: string)
    requires OwnersOk(s) && Due(s.runners, r, step)
    ensures var me := s.runners[r];
      OwnersOk(s.(calls := s.calls + multiset{step},
                  runners := s.runners[r := me.(members := me.members[step := InFlight])]))
  {
    var me := s.runners[r];
    var after := s.runners[r := me.(members := me.members[step := InFlight])];
    CountedCall(s, r, step);
    assert Owns(s.runners, r, step);
    assert forall q, x :: Owns(after, q, x) ==> Owns(s.runners, q, x);
  }

  lemma CallKeeps(t: Turn, s: State, r: nat, step: string)
    requires Inv(t, s) && Enabled(t, s, Call(r, step))
    ensures Inv(t, Apply(t, s, Call(r, step)))
  {
    var s' := Apply(t, s, Call(r, step));
    assert Due(s.runners, r, step);
    CalledJournalOk(t, s, r, step);
    assert JournalOk(t, s');
    CalledOwners(s, r, step);
    assert RunnersOk(t, s') by { MemberChanges(t, s.journal, s.runners[r], step, InFlight); }
  }

  lemma CountedCall(s: State, r: nat, step: string)
    requires OwnersOk(s) && Due(s.runners, r, step)
    ensures DueUncounted(s.journal, s.calls + multiset{step},
                         s.runners[r := s.runners[r].(members := s.runners[r].members[step := InFlight])])
  {
    var after := s.runners[r := s.runners[r].(members := s.runners[r].members[step := InFlight])];
    assert Owns(s.runners, r, step);
    forall q, x | Due(after, q, x)
      ensures (s.calls + multiset{step})[x] <= Boundaries(s.journal, x)
    {
      assert Due(s.runners, q, x) && Owns(s.runners, q, x);
      assert x != step;
    }
  }

  /** Joining forgets only settled members, unless a sibling threw and the rest run on. */
  lemma JoinKeeps(t: Turn, s: State, r: nat)
    requires Inv(t, s) && Enabled(t, s, Join(r))
    ensures Inv(t, Apply(t, s, Join(r)))
  {
    var me := s.runners[r];
    assert RunnerOk(t, s.journal, me);
    if !AnyMember(me, Threw) && !AnyMember(me, Uncertain) && !AnyMember(me, AwaitsApproval) {
      JoinAdvances(t, s.journal, me);
    }
    ReplaceRunner(t, s, r, JoinRunner(t, me));
  }

  lemma SettledBatch(t: Turn, j: Journal, me: Runner)
    requires RunnerOk(t, j, me) && me.marked
    requires AllSettled(me) && !AnyMember(me, Threw) && !AnyMember(me, Uncertain) && !AnyMember(me, AwaitsApproval)
    ensures forall x :: x in Steps(t.groups[me.group]) ==>
              IsCommitted(j, x) && x in me.members && me.members[x] == Returned(j[x].result)
  {
    forall x | x in Steps(t.groups[me.group])
      ensures IsCommitted(j, x) && x in me.members && me.members[x] == Returned(j[x].result)
    {
      assert !IsLive(me, x);
      assert me.members[x].Returned?;
    }
  }

  lemma AdvancedResults(t: Turn, j: Journal, g: nat, members: map<string, Member>)
    requires g < |t.groups|
    requires forall x :: x in Steps(t.groups[g]) ==>
               IsCommitted(j, x) && x in members && members[x] == Returned(j[x].result)
    ensures CommittedResults(j, Flatten(t.groups[..g + 1])) ==
            CommittedResults(j, Flatten(t.groups[..g])) + ResultsOf(t.groups[g], members)
  {
    var batch := t.groups[g];
    ResultsAreCommitted(j, batch, members);
    assert t.groups[..g + 1] == t.groups[..g] + [batch];
    FlattenAppend(t.groups[..g], [batch]);
    assert Flatten([batch]) == batch by {
      assert Flatten([batch][1..]) == [];
    }
    CommittedResultsAppend(j, Flatten(t.groups[..g]), batch);
  }

  lemma JoinAdvances(t: Turn, j: Journal, me: Runner)
    requires RunnerOk(t, j, me) && me.marked && me.outcome == Active
    requires AllSettled(me) && !AnyMember(me, Threw) && !AnyMember(me, Uncertain) && !AnyMember(me, AwaitsApproval)
    ensures RunnerOk(t, j, JoinRunner(t, me))
  {
    SettledBatch(t, j, me);
    AdvancedResults(t, j, me.group, me.members);
    assert GroupCommitted(j, t.groups[me.group]);
  }

  lemma {:induction false} ResultsAreCommitted(j: Journal, attempts: seq<Identity>, members: map<string, Member>)
    requires forall x :: x in Steps(attempts) ==>
               IsCommitted(j, x) && x in members && members[x] == Returned(j[x].result)
    ensures ResultsOf(attempts, members) == CommittedResults(j, attempts)
  {
    if attempts != [] {
      assert attempts[0].stepId in Steps(attempts);
      assert Steps(attempts[1..]) <= Steps(attempts);
      ResultsAreCommitted(j, attempts[1..], members);
    }
  }

  lemma {:induction false} CommittedResultsAppend(j: Journal, xs: seq<Identity>, ys: seq<Identity>)
    ensures CommittedResults(j, xs + ys) == CommittedResults(j, xs) + CommittedResults(j, ys)
  {
    if xs == [] {
      assert xs + ys == ys;
    } else {
      assert (xs + ys)[1..] == xs[1..] + ys;
      CommittedResultsAppend(j, xs[1..], ys);
    }
  }

  // Marking a batch.

  lemma {:induction false} MarkedMatch(j: Journal, due: seq<Identity>, attempts: seq<Identity>)
    requires AllMatch(j, attempts) && CanMark(j, due)
    ensures AllMatch(MarkAll(j, due), attempts)
  {
    MarkEffect(j, due);
    forall a | a in attempts
      ensures Matches(MarkAll(j, due), a)
    {
      assert Matches(j, a);
    }
  }

  lemma MarkedJournalOk(t: Turn, s: State, due: seq<Identity>)
    requires JournalOk(t, s) && CanMark(s.journal, due)
    ensures JournalOk(t, s.(journal := MarkAll(s.journal, due)))
  {
    MarkEffect(s.journal, due);
    MarkedMatch(s.journal, due, Attempts(t));
  }

  lemma MarkedGrows(j: Journal, due: seq<Identity>)
    requires CanMark(j, due)
    ensures Grows(j, MarkAll(j, due))
  {
    MarkEffect(j, due);
  }

  lemma MarkedBarrier(t: Turn, j: Journal, due: seq<Identity>, g: nat)
    requires WellFormed(t) && Barrier(t, j) && CanMark(j, due) && g < |t.groups|
    requires Steps(due) <= Steps(t.groups[g])
    requires forall k :: 0 <= k < g ==> GroupCommitted(j, t.groups[k])
    ensures Barrier(t, MarkAll(j, due))
  {
    var j' := MarkAll(j, due);
    MarkEffect(j, due);
    forall k, h, x | 0 <= k < h < |t.groups| && x in Steps(t.groups[h]) && Touched(j', x)
      ensures GroupCommitted(j', t.groups[k])
    {
      if x in Steps(due) && h != g {
        if h > g { GroupsDisjoint(t.groups, g, h); }
        assert false;
      } else if x !in Steps(due) {
        assert Touched(j, x);
        assert GroupCommitted(j, t.groups[k]);
      }
    }
  }

  /** Steps still owned elsewhere are outcome_unknown already, so a mark never covers them. */
  lemma MarkedOwners(s: State, due: seq<Identity>)
    requires OwnersOk(s) && CanMark(s.journal, due)
    ensures OwnersOk(s.(journal := MarkAll(s.journal, due)))
    ensures forall r, x :: Owns(s.runners, r, x) ==> x !in Steps(due)
  {
    var j' := MarkAll(s.journal, due);
    MarkEffect(s.journal, due);
    forall r, x | Owns(s.runners, r, x)
      ensures x !in Steps(due) && OwnedEntry(j', s.runners[r].classes, x)
    {
      assert OwnedEntry(s.journal, s.runners[r].classes, x);
    }
    forall r, x | Due(s.runners, r, x)
      ensures s.calls[x] <= Boundaries(j', x)
    {
      assert Owns(s.runners, r, x);
    }
  }

  /** The journal after a mark, with every runner unchanged. */
  lemma MarkWrites(t: Turn, s: State, due: seq<Identity>, g: nat)
    requires Inv(t, s) && CanMark(s.journal, due) && g < |t.groups|
    requires Steps(due) <= Steps(t.groups[g])
    requires forall k :: 0 <= k < g ==> GroupCommitted(s.journal, t.groups[k])
    ensures Inv(t, s.(journal := MarkAll(s.journal, due)))
  {
    MarkedJournalOk(t, s, due);
    MarkedGrows(s.journal, due);
    RunnersSurviveGrowth(t, s, MarkAll(s.journal, due));
    MarkedBarrier(t, s.journal, due, g);
    MarkedOwners(s, due);
  }

  function Enter(t: Turn, me: Runner): Runner
    requires me.group < |t.groups|
  {
    me.(marked := true, members := map x | x in Steps(t.groups[me.group]) ::
                                     InitialMember(if x in me.classes then me.classes[x] else Missing))
  }

  lemma EnteredOk(t: Turn, j: Journal, me: Runner)
    requires RunnerOk(t, j, me) && me.outcome == Active && !me.marked && me.group < |t.groups|
    ensures RunnerOk(t, j, Enter(t, me))
    ensures forall x :: IsLive(Enter(t, me), x) <==>
                        x in Steps(t.groups[me.group]) && x in me.classes && me.classes[x] == Open(NotStarted)
  {
    StepsOfFlatten(t.groups, me.group);
    forall x | x in Steps(t.groups[me.group])
      ensures x in me.classes && (me.classes[x] == Open(NotStarted) || me.classes[x].Done?)
    {
      assert !Unsafe(me.classes[x]);
    }
  }

  /** A runner that has just marked its batch owns exactly the steps it marked. */
  lemma EnteredOwns(t: Turn, s: State, r: nat, due: seq<Identity>, q: nat, x: string)
    requires r in s.runners && CanMark(s.journal, due)
    requires RunnerOk(t, s.journal, s.runners[r]) && s.runners[r].outcome == Active
    requires !s.runners[r].marked && s.runners[r].group < |t.groups|
    requires due == ToDispatch(t.groups[s.runners[r].group], s.runners[r].classes)
    ensures var after := s.runners[r := Enter(t, s.runners[r])];
      && (Owns(after, q, x) ==> (q == r && x in Steps(due)) || Owns(s.runners, q, x))
      && (Due(after, q, x) ==> (q == r && x in Steps(due)) || Due(s.runners, q, x))
  {
    DueSteps(t.groups[s.runners[r].group], s.runners[r].classes);
    EnteredOk(t, s.journal, s.runners[r]);
  }

  lemma EnteredOwners(t: Turn, s: State, r: nat, due: seq<Identity>)
    requires OwnersOk(s) && r in s.runners && CanMark(s.journal, due)
    requires RunnerOk(t, s.journal, s.runners[r]) && s.runners[r].outcome == Active
    requires !s.runners[r].marked && s.runners[r].group < |t.groups|
    requires due == ToDispatch(t.groups[s.runners[r].group], s.runners[r].classes)
    requires forall x :: x in Steps(due) ==> s.calls[x] <= Boundaries(s.journal, x)
    ensures OwnersOk(s.(journal := MarkAll(s.journal, due), runners := s.runners[r := Enter(t, s.runners[r])]))
  {
    var me := s.runners[r];
    var j', after := MarkAll(s.journal, due), s.runners[r := Enter(t, me)];
    forall q, x
      ensures Owns(after, q, x) ==> (q == r && x in Steps(due)) || Owns(s.runners, q, x)
      ensures Due(after, q, x) ==> (q == r && x in Steps(due)) || Due(s.runners, q, x)
    {
      EnteredOwns(t, s, r, due, q, x);
    }
    DueSteps(t.groups[me.group], me.classes);
    MarkEffect(s.journal, due);
    MarkedOwners(s, due);
    assert Exclusive(after);
    assert OwnedUnknown(j', after);
    assert DueUncounted(j', s.calls, after);
  }

  lemma MarkSucceeds(t: Turn, s: State, r: nat, due: seq<Identity>)
    requires Inv(t, s) && Enabled(t, s, Mark(r, Clean))
    requires due == ToDispatch(t.groups[s.runners[r].group], s.runners[r].classes) && CanMark(s.journal, due)
    ensures Inv(t, s.(journal := MarkAll(s.journal, due), runners := s.runners[r := Enter(t, s.runners[r])]))
  {
    var me := s.runners[r];
    var j' := MarkAll(s.journal, due);
    assert RunnerOk(t, s.journal, me);
    assert RunnersOk(t, s.(journal := j')) && JournalOk(t, s.(journal := j')) && Barrier(t, j') by {
      DueSteps(t.groups[me.group], me.classes);
      MarkWrites(t, s, due, me.group);
    }
    assert RunnerOk(t, j', Enter(t, me)) by {
      EnteredOk(t, s.journal, me);
      MarkedGrows(s.journal, due);
      RunnerSurvivesGrowth(t, s.journal, j', Enter(t, me));
    }
    DueNotCounted(t, s, due, me.group, me.classes);
    EnteredOwners(t, s, r, due);
  }

  lemma DueNotCounted(t: Turn, s: State, due: seq<Identity>, g: nat, classes: map<string, Classification>)
    requires JournalOk(t, s) && g < |t.groups| && due == ToDispatch(t.groups[g], classes) && CanMark(s.journal, due)
    ensures forall x :: x in Steps(due) ==> s.calls[x] <= Boundaries(s.journal, x)
  {
    DueSteps(t.groups[g], classes);
    StepsOfFlatten(t.groups, g);
    MarkEffect(s.journal, due);
  }

  lemma MarkKeeps(t: Turn, s: State, r: nat, write: Write)
    requires Inv(t, s) && Enabled(t, s, Mark(r, write))
    ensures Inv(t, Apply(t, s, Mark(r, write)))
  {
    var me := s.runners[r];
    assert RunnerOk(t, s.journal, me);
    var due := ToDispatch(t.groups[me.group], me.classes);
    DueSteps(t.groups[me.group], me.classes);
    if due == [] {
      EnteredOk(t, s.journal, me);
      assert Steps(due) == {};
      ReplaceRunner(t, s, r, Enter(t, me));
    } else if !CanMark(s.journal, due) || write == LostWrite {
      ReplaceRunner(t, s, r, me.(outcome := Failed));
    } else if write == LateError {
      MarkWrites(t, s, due, me.group);
      var marked := s.(journal := MarkAll(s.journal, due));
      assert RunnerOk(t, marked.journal, me);
      ReplaceRunner(t, marked, r, me.(outcome := Failed));
    } else {
      MarkSucceeds(t, s, r, due);
    }
  }

  // Receiving a reply.

  lemma SettlementEffect(t: Turn, j: Journal, x: string, reply: Reply, write: Write)
    requires Keyed(j) && x in j && j[x].Pending? && j[x].state == OutcomeUnknown
    ensures var (j', m) := Settlement(t, j, x, reply, write);
      && j'.Keys == j.Keys
      && (forall y :: y in j && y != x ==> j'[y] == j[y])
      && j'[x].id == j[x].id
      && (Boundaries(j', x) + if Dispatched(j', x) then 1 else 0) == Boundaries(j, x) + 1
      && !m.ToCall? && !m.InFlight?
      && (m.Returned? ==> IsCommitted(j', x) && j'[x].result == m.result)
      && (j'[x] == j[x] || reply.Replied?)
      && (IsCommitted(j', x) ==> reply == Replied(j'[x].result) && !AcceptedApproval(t, j'[x].result))
  {
  }

  lemma ReceivedJournalOk(t: Turn, s: State, x: string, reply: Reply, write: Write)
    requires JournalOk(t, s)
    requires x in s.journal && s.journal[x].Pending? && s.journal[x].state == OutcomeUnknown
    ensures JournalOk(t, s.(journal := Settlement(t, s.journal, x, reply, write).0))
  {
    SettlementEffect(t, s.journal, x, reply, write);
    var j' := Settlement(t, s.journal, x, reply, write).0;
    forall a | a in Attempts(t)
      ensures Matches(j', a)
    {
      assert Matches(s.journal, a);
    }
  }

  lemma ReceivedOwners(t: Turn, s: State, r: nat, x: string, reply: Reply, write: Write)
    requires OwnersOk(s) && Owns(s.runners, r, x) && Keyed(s.journal)
    requires x in s.journal && s.journal[x].Pending? && s.journal[x].state == OutcomeUnknown
    ensures var (j', m) := Settlement(t, s.journal, x, reply, write);
      var me := s.runners[r];
      OwnersOk(s.(journal := j', runners := s.runners[r := me.(members := me.members[x := m])]))
  {
    var (j', m) := Settlement(t, s.journal, x, reply, write);
    SettlementEffect(t, s.journal, x, reply, write);
    var after := s.runners[r := s.runners[r].(members := s.runners[r].members[x := m])];
    forall q, y | Owns(after, q, y)
      ensures Owns(s.runners, q, y) && y != x
    {
      assert q != r ==> after[q] == s.runners[q];
      assert y == x && q != r ==> Owns(s.runners, q, x);
    }
    forall q, y | Owns(after, q, y)
      ensures OwnedEntry(j', after[q].classes, y)
    {
      assert OwnedEntry(s.journal, s.runners[q].classes, y);
    }
    forall q, y | Due(after, q, y)
      ensures s.calls[y] <= Boundaries(j', y)
    {
      assert Owns(after, q, y) && Due(s.runners, q, y);
      assert OwnedEntry(s.journal, s.runners[q].classes, y);
    }
  }

  lemma ReceivedRunnersOk(t: Turn, s: State, r: nat, step: string, reply: Reply, write: Write)
    requires RunnersOk(t, s) && Keyed(s.journal) && Owns(s.runners, r, step)
    requires step in s.journal && s.journal[step].Pending? && s.journal[step].state == OutcomeUnknown
    ensures var (j', m) := Settlement(t, s.journal, step, reply, write);
      var me := s.runners[r];
      && RunnersOk(t, s.(journal := j', runners := s.runners[r := me.(members := me.members[step := m])]))
      && Grows(s.journal, j')
  {
    var (j', m) := Settlement(t, s.journal, step, reply, write);
    SettlementEffect(t, s.journal, step, reply, write);
    assert Grows(s.journal, j');
    RunnersSurviveGrowth(t, s, j');
    MemberChanges(t, j', s.runners[r], step, m);
  }

  lemma ReceiveKeeps(t: Turn, s: State, r: nat, step: string, reply: Reply, write: Write)
    requires Inv(t, s) && Enabled(t, s, Receive(r, step, reply, write))
    ensures Inv(t, Apply(t, s, Receive(r, step, reply, write)))
  {
    var me := s.runners[r];
    var s' := Apply(t, s, Receive(r, step, reply, write));
    assert Owns(s.runners, r, step);
    assert OwnedEntry(s.journal, me.classes, step);
    assert JournalOk(t, s') by { ReceivedJournalOk(t, s, step, reply, write); }
    assert OwnersOk(s') by { ReceivedOwners(t, s, r, step, reply, write); }
    ReceivedRunnersOk(t, s, r, step, reply, write);
    ReceivedBarrier(t, s, step, reply, write);
  }

  lemma ReceivedBarrier(t: Turn, s: State, x: string, reply: Reply, write: Write)
    requires Keyed(s.journal) && Barrier(t, s.journal)
    requires x in s.journal && s.journal[x].Pending? && s.journal[x].state == OutcomeUnknown
    ensures Barrier(t, Settlement(t, s.journal, x, reply, write).0)
  {
    SettlementEffect(t, s.journal, x, reply, write);
    BarrierSurvives(t, s.journal, Settlement(t, s.journal, x, reply, write).0);
  }

  lemma StepKeepsInv(t: Turn, s: State, a: Action)
    requires Inv(t, s) && Enabled(t, s, a)
    ensures Inv(t, Apply(t, s, a))
  {
    match a
    case Observe => ObserveKeeps(t, s);
    case Start(r) => StartKeeps(t, s, r);
    case Mark(r, write) => MarkKeeps(t, s, r, write);
    case Call(r, step) => CallKeeps(t, s, r, step);
    case Receive(r, step, reply, write) => ReceiveKeeps(t, s, r, step, reply, write);
    case Join(r) => JoinKeeps(t, s, r);
    case Crash(lost) => CrashKeeps(t, s, lost);
  }

  lemma InitialInv(t: Turn, s: State)
    requires Initial(t, s)
    ensures Inv(t, s)
  {
    forall h, x | 0 <= h < |t.groups| && x in Steps(t.groups[h])
      ensures !Touched(s.journal, x)
    {
      StepsOfFlatten(t.groups, h);
    }
  }

  lemma {:induction false} RunKeepsInv(t: Turn, s: State, actions: seq<Action>)
    requires Inv(t, s) && Run(t, s, actions).Some?
    ensures Inv(t, Run(t, s, actions).value)
    decreases |actions|
  {
    if actions != [] {
      StepKeepsInv(t, s, actions[0]);
      RunKeepsInv(t, Apply(t, s, actions[0]), actions[1..]);
    }
  }

  // ---------------------------------------------------------------- main results

  /** Over any interleaving of a batch's calls, crashes, restarts and failing writes: a step's
      tool has been called at most once for each approval boundary on record, plus once if the
      journal says it was dispatched. */
  lemma CallsBounded(t: Turn, s: State, actions: seq<Action>, step: string)
    requires Initial(t, s) && Run(t, s, actions).Some? && step in TurnSteps(t)
    ensures var s' := Run(t, s, actions).value;
      s'.calls[step] <= Boundaries(s'.journal, step) + if Dispatched(s'.journal, step) then 1 else 0
  {
    InitialInv(t, s);
    RunKeepsInv(t, s, actions);
  }

  /** In every reachable journal, once any attempt of a batch has left not_started every attempt
      of all earlier batches is committed. */
  lemma BatchBarrier(t: Turn, s: State, actions: seq<Action>, g: nat, h: nat, step: string)
    requires Initial(t, s) && Run(t, s, actions).Some?
    requires g < h < |t.groups| && step in Steps(t.groups[h])
    requires Touched(Run(t, s, actions).value.journal, step)
    ensures forall x :: x in Steps(t.groups[g]) ==> IsCommitted(Run(t, s, actions).value.journal, x)
  {
    InitialInv(t, s);
    RunKeepsInv(t, s, actions);
    assert GroupCommitted(Run(t, s, actions).value.journal, t.groups[g]);
  }

  /** No runner has a call due or in flight, and none can go on. */
  ghost predicate Quiet(s: State) {
    forall r :: r in s.runners ==>
      !s.runners[r].outcome.Active? && forall x :: x in s.runners[r].members ==> !IsLive(s.runners[r], x)
  }

  /** Re-running a turn that has an unknown or missing attempt calls nothing and writes nothing,
      however often it is restarted; only recording new intents could change the journal. */
  lemma {:induction false} UnsafeTurnFrozen(t: Turn, s: State, actions: seq<Action>)
    requires Quiet(s) && UnsafeTurn(t, s.journal) && Run(t, s, actions).Some?
    requires forall a :: a in actions ==> a != Observe
    ensures var s' := Run(t, s, actions).value;
      s'.journal == s.journal && s'.calls == s.calls && Quiet(s')
    decreases |actions|
  {
    if actions != [] {
      var a := actions[0];
      assert a in actions;
      var s1 := Apply(t, s, a);
      match a {
        case Observe =>
        case Start(r) =>
        case Crash(lost) =>
        case Mark(r, _) =>
        case Join(r) =>
        case Call(r, x) =>
        case Receive(r, x, _, _) =>
      }
      assert s1.journal == s.journal && s1.calls == s.calls && Quiet(s1);
      assert forall b :: b in actions[1..] ==> b in actions;
      UnsafeTurnFrozen(t, s1, actions[1..]);
    }
  }

  /** Entries stay, and new ones are intents that have never been dispatched. */
  ghost predicate OnlyNewIntents(j: Journal, j': Journal) {
    && (forall x :: x in j ==> x in j' && j'[x] == j[x])
    && (forall x :: x in j' && x !in j ==> j'[x].Pending? && j'[x].state == NotStarted && j'[x].boundaries == 0)
  }

  ghost predicate UnknownTurn(t: Turn, j: Journal) {
    exists x :: x in TurnSteps(t) && x in j && ClassOf(j, x) == Open(OutcomeUnknown)
  }

  /** With an outcome_unknown attempt nothing helps: whatever happens from a quiet state, including
      the recording of intents on every re-run, no tool is called and no entry changes. */
  lemma {:induction false} UnknownTurnFrozen(t: Turn, s: State, actions: seq<Action>)
    requires Quiet(s) && UnknownTurn(t, s.journal) && Run(t, s, actions).Some?
    ensures var s' := Run(t, s, actions).value;
      s'.calls == s.calls && OnlyNewIntents(s.journal, s'.journal) && Quiet(s') && UnknownTurn(t, s'.journal)
    decreases |actions|
  {
    if actions != [] {
      UnknownTurnStep(t, s, actions[0]);
      UnknownTurnFrozen(t, Apply(t, s, actions[0]), actions[1..]);
    }
  }

  lemma UnknownTurnStep(t: Turn, s: State, a: Action)
    requires Quiet(s) && UnknownTurn(t, s.journal) && Enabled(t, s, a)
    ensures var s' := Apply(t, s, a);
      s'.calls == s.calls && OnlyNewIntents(s.journal, s'.journal) && Quiet(s') && UnknownTurn(t, s'.journal)
  {
    var x :| x in TurnSteps(t) && x in s.journal && ClassOf(s.journal, x) == Open(OutcomeUnknown);
    match a {
      case Observe =>
        ObserveAllEntries(s.journal, Attempts(t));
        assert ClassOf(Apply(t, s, a).journal, x) == Open(OutcomeUnknown);
      case Start(r) =>
        assert Unsafe(ClassOf(s.journal, x));
      case Crash(lost) =>
      case Mark(r, _) =>
      case Join(r) =>
      case Call(r, y) =>
      case Receive(r, y, _, _) =>
    }
  }

  predicate ActsFor(a: Action, r: nat) {
    match a
    case Mark(q, _) => q == r
    case Call(q, _) => q == r
    case Receive(q, _, _, _) => q == r
    case Join(q) => q == r
    case _ => false
  }

  /** A runner that starts on an unknown or missing attempt never acts, whatever the other runners do
      meanwhile, with calls of their own in flight or not. */
  lemma RefusedRunnerNeverActs(t: Turn, s: State, actions: seq<Action>, r: nat)
    requires UnsafeTurn(t, s.journal) && Enabled(t, s, Start(r)) && Run(t, Apply(t, s, Start(r)), actions).Some?
    requires forall a :: a in actions && a.Crash? ==> r !in a.lost
    ensures forall a :: a in actions ==> !ActsFor(a, r)
  {
    IdleRunnerStays(t, Apply(t, s, Start(r)), actions, r);
  }

  lemma {:induction false} IdleRunnerStays(t: Turn, s: State, actions: seq<Action>, r: nat)
    requires r in s.runners && !s.runners[r].outcome.Active? && s.runners[r].members == map[]
    requires Run(t, s, actions).Some? && forall a :: a in actions && a.Crash? ==> r !in a.lost
    ensures forall a :: a in actions ==> !ActsFor(a, r)
    decreases |actions|
  {
    if actions != [] {
      var s1 := Apply(t, s, actions[0]);
      assert actions[0] in actions;
      assert !ActsFor(actions[0], r);
      assert r in s1.runners && s1.runners[r] == s.runners[r];
      IdleRunnerStays(t, s1, actions[1..], r);
      assert actions == [actions[0]] + actions[1..];
    }
  }

  /** A committed step is final: its entry never changes again and its tool is never called again,
      so recovery replays it. */
  lemma {:induction false} CommittedFrozen(t: Turn, s: State, actions: seq<Action>, step: string)
    requires Inv(t, s) && Run(t, s, actions).Some? && IsCommitted(s.journal, step)
    ensures var s' := Run(t, s, actions).value;
      IsCommitted(s'.journal, step) && s'.journal[step] == s.journal[step] && s'.calls[step] == s.calls[step]
    decreases |actions|
  {
    if actions != [] {
      var a := actions[0];
      StepKeepsInv(t, s, a);
      CommittedStep(t, s, a, step);
      CommittedFrozen(t, Apply(t, s, a), actions[1..], step);
    }
  }

  lemma OwnedIsUnknown(s: State, r: nat, x: string)
    requires OwnersOk(s) && Owns(s.runners, r, x)
    ensures x in s.journal && s.journal[x].Pending? && s.journal[x].state == OutcomeUnknown
  {
    assert OwnedEntry(s.journal, s.runners[r].classes, x);
  }

  lemma CommittedStep(t: Turn, s: State, a: Action, step: string)
    requires OwnersOk(s) && Keyed(s.journal) && Enabled(t, s, a) && IsCommitted(s.journal, step)
    ensures var s' := Apply(t, s, a);
      IsCommitted(s'.journal, step) && s'.journal[step] == s.journal[step] && s'.calls[step] == s.calls[step]
  {
    match a {
      case Observe => ObserveAllEntries(s.journal, Attempts(t));
      case Start(r) =>
      case Crash(lost) =>
      case Join(r) =>
      case Mark(r, _) =>
        var due := ToDispatch(t.groups[s.runners[r].group], s.runners[r].classes);
        if CanMark(s.journal, due) { MarkEffect(s.journal, due); }
      case Call(r, x) => OwnedIsUnknown(s, r, x);
      case Receive(r, x, reply, write) =>
        OwnedIsUnknown(s, r, x);
        SettlementEffect(t, s.journal, x, reply, write);
    }
  }

  // ---------------------------------------------------------------- crash transparency

  /** The tools give the same response to the same step, unless the transport fails. */
  predicate Obeys(a: Action, tools: string -> Reply) {
    a.Receive? && a.reply.Replied? ==> tools(a.step) == a.reply
  }

  /** What the journal holds of this turn are the tools' own replies. */
  ghost predicate Faithful(t: Turn, j: Journal, tools: string -> Reply) {
    forall x :: x in TurnSteps(t) && IsCommitted(j, x) ==>
      tools(x) == Replied(j[x].result) && !AcceptedApproval(t, j[x].result)
  }

  function ToolAnswers(attempts: seq<Identity>, tools: string -> Reply): seq<(string, ToolResult)> {
    if attempts == [] then []
    else
      (if tools(attempts[0].stepId).Replied? then [(attempts[0].stepId, tools(attempts[0].stepId).result)] else [])
      + ToolAnswers(attempts[1..], tools)
  }

  /** The only step that commits anything is the arrival of that very reply. */
  lemma CommitsComeFromReplies(t: Turn, s: State, a: Action, x: string)
    requires OwnersOk(s) && Keyed(s.journal) && Enabled(t, s, a)
    requires IsCommitted(Apply(t, s, a).journal, x) && !IsCommitted(s.journal, x)
    ensures a.Receive? && a.step == x && a.reply == Replied(Apply(t, s, a).journal[x].result)
    ensures !AcceptedApproval(t, Apply(t, s, a).journal[x].result)
  {
    match a {
      case Observe => ObserveAllEntries(s.journal, Attempts(t));
      case Start(r) =>
      case Crash(lost) =>
      case Join(r) =>
      case Mark(r, _) =>
        var due := ToDispatch(t.groups[s.runners[r].group], s.runners[r].classes);
        if CanMark(s.journal, due) { MarkEffect(s.journal, due); }
      case Call(r, y) =>
      case Receive(r, y, reply, write) =>
        OwnedIsUnknown(s, r, y);
        SettlementEffect(t, s.journal, y, reply, write);
    }
  }

  lemma FaithfulStep(t: Turn, s: State, a: Action, tools: string -> Reply)
    requires Inv(t, s) && Enabled(t, s, a) && Obeys(a, tools) && Faithful(t, s.journal, tools)
    ensures Faithful(t, Apply(t, s, a).journal, tools)
  {
    var j' := Apply(t, s, a).journal;
    forall x | x in TurnSteps(t) && IsCommitted(j', x)
      ensures tools(x) == Replied(j'[x].result) && !AcceptedApproval(t, j'[x].result)
    {
      if IsCommitted(s.journal, x) {
        CommittedStep(t, s, a, x);
      } else {
        CommitsComeFromReplies(t, s, a, x);
      }
    }
  }

  lemma {:induction false} FaithfulRun(t: Turn, s: State, actions: seq<Action>, tools: string -> Reply)
    requires Inv(t, s) && Run(t, s, actions).Some? && Faithful(t, s.journal, tools)
    requires forall a :: a in actions ==> Obeys(a, tools)
    ensures Faithful(t, Run(t, s, actions).value.journal, tools) && Inv(t, Run(t, s, actions).value)
    decreases |actions|
  {
    if actions != [] {
      assert actions[0] in actions;
      StepKeepsInv(t, s, actions[0]);
      FaithfulStep(t, s, actions[0], tools);
      FaithfulRun(t, Apply(t, s, actions[0]), actions[1..], tools);
    }
  }

  lemma {:induction false} FaithfulAnswers(j: Journal, attempts: seq<Identity>, tools: string -> Reply)
    requires forall x :: x in Steps(attempts) ==> IsCommitted(j, x) && tools(x) == Replied(j[x].result)
    ensures CommittedResults(j, attempts) == ToolAnswers(attempts, tools)
    ensures |ToolAnswers(attempts, tools)| == |attempts|
    ensures forall i :: 0 <= i < |attempts| ==> ToolAnswers(attempts, tools)[i].0 == attempts[i].stepId
  {
    if attempts != [] {
      assert attempts[0].stepId in Steps(attempts);
      assert Steps(attempts[1..]) <= Steps(attempts);
      FaithfulAnswers(j, attempts[1..], tools);
    }
  }

  /** Any runner that completes the turn, the first one or a recovery after any crashes, returns
      exactly one result for each tool use, in the order of the turn, with the tool's own reply. */
  lemma EveryCompletionAgrees(t: Turn, s: State, actions: seq<Action>, tools: string -> Reply, r: nat)
    requires Initial(t, s) && Run(t, s, actions).Some?
    requires forall a :: a in actions ==> Obeys(a, tools)
    requires r in Run(t, s, actions).value.runners && Run(t, s, actions).value.runners[r].outcome == Finished
    ensures Run(t, s, actions).value.runners[r].results == ToolAnswers(Attempts(t), tools)
    ensures |ToolAnswers(Attempts(t), tools)| == |Attempts(t)|
    ensures forall i :: 0 <= i < |Attempts(t)| ==> ToolAnswers(Attempts(t), tools)[i].0 == Attempts(t)[i].stepId
  {
    InitialInv(t, s);
    FaithfulRun(t, s, actions, tools);
    var s' := Run(t, s, actions).value;
    assert RunnerOk(t, s'.journal, s'.runners[r]);
    assert t.groups[..|t.groups|] == t.groups;
    CommittedPrefix(s'.journal, t.groups, |t.groups|);
    FaithfulAnswers(s'.journal, Attempts(t), tools);
  }
}
