/** The program's pass is a run of the step relation: a runner that nobody disturbs ends as the pass
    ends, and leaves the journal as the pass leaves it. */
module LoneRunner {
  import opened Common
  import opened Manifest
  import opened ToolProtocol
  import opened ToolDispatch
  import opened PassMeaning

  // ---------------------------------------------------------------- running actions

  lemma {:induction false} RunAppend(t: Turn, s: State, before: seq<Action>, after: seq<Action>)
    requires Run(t, s, before).Some?
    ensures Run(t, s, before + after) == Run(t, Run(t, s, before).value, after)
    decreases |before|
  {
    if before == [] {
      assert before + after == after;
    } else {
      assert (before + after)[0] == before[0] && (before + after)[1..] == before[1..] + after;
      RunAppend(t, Apply(t, s, before[0]), before[1..], after);
    }
  }

  lemma RunOne(t: Turn, s: State, a: Action)
    requires Enabled(t, s, a)
    ensures Run(t, s, [a]) == Some(Apply(t, s, a))
  {
    assert [a][1..] == [];
  }

  // ---------------------------------------------------------------- the calls of a batch

  /** Call each attempt and receive its reply, with clean writes. */
  function CallAll(r: nat, due: seq<Identity>, tools: string -> Reply): seq<Action> {
    if due == [] then []
    else CallAll(r, due[..|due| - 1], tools)
         + [Call(r, due[|due| - 1].stepId), Receive(r, due[|due| - 1].stepId, tools(due[|due| - 1].stepId), Clean)]
  }

  /** The attempts in due are marked and still to be called; the runner is in its batch. */
  ghost predicate Poised(s: State, r: nat, due: seq<Identity>) {
    && r in s.runners && DistinctSteps(due)
    && forall a :: a in due ==>
         && a.stepId in s.runners[r].members && s.runners[r].members[a.stepId] == ToCall
         && CanSettle(s.journal, a)
  }

  /** What the calls of due make of the state before them. */
  ghost predicate Called(t: Turn, s: State, r: nat, due: seq<Identity>, tools: string -> Reply, after: State) {
    && r in s.runners && r in after.runners && after.runners.Keys == s.runners.Keys
    && after.runners[r] == s.runners[r].(members := after.runners[r].members)
    && after.runners[r].members.Keys == s.runners[r].members.Keys
    && (forall x :: x in s.runners[r].members ==>
          after.runners[r].members[x]
          == if x in Steps(due) then MemberEnd(t, Open(NotStarted), tools(x)) else s.runners[r].members[x])
    && after.journal.Keys == s.journal.Keys
    && (forall x :: x in s.journal ==>
          after.journal[x] == if x in Steps(due) then AfterCall(t, s.journal[x], tools(x)) else s.journal[x])
  }

  lemma CalledNothing(t: Turn, s: State, r: nat, tools: string -> Reply)
    requires r in s.runners
    ensures Called(t, s, r, [], tools, s)
  {
  }

  lemma OneSettles(t: Turn, j: Journal, a: Identity, reply: Reply)
    requires CanSettle(j, a)
    ensures Settlement(t, j, a.stepId, reply, Clean)
            == (j[a.stepId := AfterCall(t, j[a.stepId], reply)], MemberEnd(t, Open(NotStarted), reply))
  {
    SettledEntry(t, j, a, reply);
  }

  lemma CallOne(t: Turn, s: State, r: nat, a: Identity, tools: string -> Reply)
    requires r in s.runners && a.stepId in s.runners[r].members && s.runners[r].members[a.stepId] == ToCall
    requires CanSettle(s.journal, a)
    ensures var x := a.stepId;
      Run(t, s, [Call(r, x), Receive(r, x, tools(x), Clean)])
      == Some(State(s.journal[x := AfterCall(t, s.journal[x], tools(x))], s.calls + multiset{x},
                    s.runners[r := s.runners[r].(
                      members := s.runners[r].members[x := MemberEnd(t, Open(NotStarted), tools(x))])]))
  {
    var x := a.stepId;
    var s1 := Apply(t, s, Call(r, x));
    OneSettles(t, s.journal, a, tools(x));
    var s2 := Apply(t, s1, Receive(r, x, tools(x), Clean));
    var m := MemberEnd(t, Open(NotStarted), tools(x));
    assert s.runners[r].members[x := InFlight][x := m] == s.runners[r].members[x := m];
    assert s1.runners[r := s1.runners[r].(members := s1.runners[r].members[x := m])]
        == s.runners[r := s.runners[r].(members := s.runners[r].members[x := m])];
    assert [Call(r, x), Receive(r, x, tools(x), Clean)][1..] == [Receive(r, x, tools(x), Clean)];
    RunOne(t, s1, Receive(r, x, tools(x), Clean));
  }

  lemma {:induction false} CallsRun(t: Turn, s: State, r: nat, due: seq<Identity>, tools: string -> Reply)
    requires Poised(s, r, due)
    ensures Run(t, s, CallAll(r, due, tools)).Some?
    ensures Called(t, s, r, due, tools, Run(t, s, CallAll(r, due, tools)).value)
  {
    if due == [] {
      CalledNothing(t, s, r, tools);
    } else {
      var front, a := due[..|due| - 1], due[|due| - 1];
      assert due == front + [a];
      StepsAppend(front, [a]);
      FrontPoised(s, r, due);
      CallsRun(t, s, r, front, tools);
      var mid := Run(t, s, CallAll(r, front, tools)).value;
      LastPoised(t, s, r, due, tools, mid);
      CallOne(t, mid, r, a, tools);
      RunAppend(t, s, CallAll(r, front, tools), [Call(r, a.stepId), Receive(r, a.stepId, tools(a.stepId), Clean)]);
    }
  }

  lemma FrontPoised(s: State, r: nat, due: seq<Identity>)
    requires Poised(s, r, due) && due != []
    ensures Poised(s, r, due[..|due| - 1])
  {
  }

  lemma LastPoised(t: Turn, s: State, r: nat, due: seq<Identity>, tools: string -> Reply, mid: State)
    requires Poised(s, r, due) && due != [] && Called(t, s, r, due[..|due| - 1], tools, mid)
    ensures var a := due[|due| - 1];
      && a.stepId !in Steps(due[..|due| - 1])
      && a.stepId in mid.runners[r].members && mid.runners[r].members[a.stepId] == ToCall && CanSettle(mid.journal, a)
  {
    assert due[|due| - 1] in due;
  }

  // ---------------------------------------------------------------- one batch

  /** The runner is about to start a batch. */
  ghost predicate AtBatch(t: Turn, s: State, r: nat) {
    && r in s.runners
    && var me := s.runners[r];
       && me.outcome.Active? && !me.marked && me.members == map[] && me.group < |t.groups|
       && DistinctSteps(t.groups[me.group]) && Steps(t.groups[me.group]) <= me.classes.Keys
       && forall a :: a in t.groups[me.group] ==> !Unsafe(me.classes[a.stepId])
  }

  function BatchActions(t: Turn, me: Runner, r: nat, tools: string -> Reply): seq<Action>
    requires me.group < |t.groups|
  {
    [Mark(r, Clean)] + CallAll(r, ToDispatch(t.groups[me.group], me.classes), tools) + [Join(r)]
  }

  lemma MarkPoises(t: Turn, s: State, r: nat)
    requires AtBatch(t, s, r) && CanMark(s.journal, ToDispatch(t.groups[s.runners[r].group], s.runners[r].classes))
    ensures var me := s.runners[r];
      var due := ToDispatch(t.groups[me.group], me.classes);
      var s1 := Apply(t, s, Mark(r, Clean));
      && s1.runners == s.runners[r := Enter(t, me)] && s1.journal == MarkAll(s.journal, due) && Poised(s1, r, due)
  {
    var me := s.runners[r];
    var batch := t.groups[me.group];
    var due := ToDispatch(batch, me.classes);
    DueAttempts(batch, me.classes);
    MarkEffect(s.journal, due);
    if due == [] { MarkNothing(s.journal); }
    var s1 := Apply(t, s, Mark(r, Clean));
    assert s1.runners[r] == Enter(t, me);
    forall a | a in due
      ensures a.stepId in s1.runners[r].members && s1.runners[r].members[a.stepId] == ToCall
      ensures CanSettle(s1.journal, a)
    {
      assert a in batch && a.stepId in Steps(batch) && CanMarkOne(s.journal, a) && a.stepId in Steps(due);
    }
  }

  /** The members of the runner after the calls are the ends of the batch. */
  lemma MembersAreEnds(t: Turn, me: Runner, mid: Runner, tools: string -> Reply)
    requires me.group < |t.groups| && Steps(t.groups[me.group]) <= me.classes.Keys
    requires forall a :: a in t.groups[me.group] ==> !Unsafe(me.classes[a.stepId])
    requires var due := ToDispatch(t.groups[me.group], me.classes);
      && mid.members.Keys == Enter(t, me).members.Keys
      && forall x :: x in Enter(t, me).members ==>
           mid.members[x]
           == if x in Steps(due) then MemberEnd(t, Open(NotStarted), tools(x)) else Enter(t, me).members[x]
    ensures EndedAs(mid, t.groups[me.group], BatchEnds(t, t.groups[me.group], me.classes, tools))
  {
    var batch := t.groups[me.group];
    var due := ToDispatch(batch, me.classes);
    DueAttempts(batch, me.classes);
    forall i | 0 <= i < |batch|
      ensures mid.members[batch[i].stepId] == BatchEnds(t, batch, me.classes, tools)[i]
    {
      var x := batch[i].stepId;
      assert batch[i] in batch && x in Steps(batch);
      if me.classes[x] == Open(NotStarted) { assert batch[i] in due && x in Steps(due); }
      if x in Steps(due) {
        var a :| a in due && a.stepId == x;
        assert me.classes[x] == Open(NotStarted);
      }
    }
  }

  lemma JournalIsAfter(t: Turn, j: Journal, due: seq<Identity>, tools: string -> Reply, mid: Journal)
    requires CanMark(j, due) && mid.Keys == j.Keys
    requires forall x :: x in j ==>
      mid[x] == if x in Steps(due) then AfterCall(t, MarkAll(j, due)[x], tools(x)) else MarkAll(j, due)[x]
    ensures JournalAfter(t, j, StepIds(due), tools, mid)
  {
    DueIds(due);
    MarkEffect(j, due);
    forall x | x in j
      ensures mid[x] == if x in StepIds(due) then AfterCall(t, j[x], tools(x)) else j[x]
    {
      assert HasStep(due, x) <==> x in Steps(due);
    }
  }

  lemma BatchRuns(t: Turn, s: State, r: nat, tools: string -> Reply) returns (mid: Runner)
    requires AtBatch(t, s, r) && CanMark(s.journal, ToDispatch(t.groups[s.runners[r].group], s.runners[r].classes))
    ensures var me := s.runners[r];
      var run := Run(t, s, BatchActions(t, me, r, tools));
      && mid.group == me.group && mid.results == me.results && mid.classes == me.classes
      && EndedAs(mid, t.groups[me.group], BatchEnds(t, t.groups[me.group], me.classes, tools))
      && run.Some? && r in run.value.runners && run.value.runners[r] == JoinRunner(t, mid)
      && JournalAfter(t, s.journal, StepIds(ToDispatch(t.groups[me.group], me.classes)), tools, run.value.journal)
  {
    var me := s.runners[r];
    var due := ToDispatch(t.groups[me.group], me.classes);
    var s1 := Apply(t, s, Mark(r, Clean));
    MarkPoises(t, s, r);
    RunOne(t, s, Mark(r, Clean));
    CallsRun(t, s1, r, due, tools);
    RunAppend(t, s, [Mark(r, Clean)], CallAll(r, due, tools));
    var s2 := Run(t, s1, CallAll(r, due, tools)).value;
    mid := s2.runners[r];
    MembersAreEnds(t, me, mid, tools);
    JournalIsAfter(t, s.journal, due, tools, s2.journal);
    Settles(t, mid, t.groups[me.group], me.classes, tools);
    RunOne(t, s2, Join(r));
    RunAppend(t, s, [Mark(r, Clean)] + CallAll(r, due, tools), [Join(r)]);
  }

  lemma Settles(
      t: Turn, mid: Runner, batch: seq<Identity>, classes: map<string, Classification>, tools: string -> Reply)
    requires Steps(batch) <= classes.Keys && EndedAs(mid, batch, BatchEnds(t, batch, classes, tools))
    ensures AllSettled(mid)
  {
    forall x | x in mid.members
      ensures !IsLive(mid, x)
    {
      var a :| a in batch && a.stepId == x;
      var i :| 0 <= i < |batch| && batch[i] == a;
      assert mid.members[x] == BatchEnds(t, batch, classes, tools)[i];
    }
  }

  // ---------------------------------------------------------------- the whole pass

  /** The runner has ended as the pass says, and so has the journal. */
  ghost predicate Agrees(t: Turn, j0: Journal, tools: string -> Reply, s: State, r: nat) {
    && r in s.runners
    && (match TurnOutcome(t, j0, tools)
        case Completed(results) => s.runners[r].outcome == Finished && s.runners[r].results == results
        case OutcomeIsUnknown => s.runners[r].outcome == StoppedUnknown
        case NeedsApproval => s.runners[r].outcome == StoppedApproval
        case Error => s.runners[r].outcome == Failed)
    && JournalAfter(t, j0, if UnsafeTurn(t, j0) then [] else CalledBy(t, t.groups, {}, ClassesOf(t, j0), tools), tools,
                    s.journal)
  }

  ghost predicate CalledEarlier(t: Turn, g: nat, called: seq<string>) {
    g <= |t.groups| && forall x :: x in called ==> x !in Steps(Flatten(t.groups[g..]))
  }

  /** The runner stands before batch g of a pass that is on the way. */
  ghost predicate Standing(t: Turn, j0: Journal, s: State, r: nat, called: seq<string>, tools: string -> Reply) {
    && WellFormed(t) && Ready(t, j0, ClassesOf(t, j0)) && r in s.runners
    && var me := s.runners[r];
       && me.outcome.Active? && !me.marked && me.members == map[] && me.group < |t.groups|
       && me.classes == ClassesOf(t, j0) && CalledEarlier(t, me.group, called)
       && OnTheWay(t, j0, me.classes, me.group, called, me.results, tools, s.journal)
  }

  lemma {:induction false} DistinctRest(groups: seq<seq<Identity>>, g: nat)
    requires DistinctSteps(Flatten(groups)) && g <= |groups|
    ensures DistinctSteps(Flatten(groups[g..]))
  {
    if g == 0 {
      assert groups[0..] == groups;
    } else {
      DistinctRest(groups, g - 1);
      RestSteps(groups, g - 1);
    }
  }

  lemma StandingIsReady(t: Turn, j0: Journal, s: State, r: nat, called: seq<string>, tools: string -> Reply)
    requires Standing(t, j0, s, r, called, tools)
    ensures AtBatch(t, s, r)
    ensures var due := ToDispatch(t.groups[s.runners[r].group], s.runners[r].classes);
      && Fresh(due, StepSet(called)) && CanMark(s.journal, due)
      && CalledEarlier(t, s.runners[r].group + 1, called + StepIds(due))
  {
    var me := s.runners[r];
    var g := me.group;
    var due := ToDispatch(t.groups[g], me.classes);
    DistinctRest(t.groups, g);
    RestSteps(t.groups, g);
    MarkableWhenFresh(t, j0, me.classes, g, called, tools, s.journal);
    DueAttempts(t.groups[g], me.classes);
    DueIds(due);
    assert Steps(due) <= Steps(t.groups[g]);
  }

  lemma {:induction false} PassRuns(
      t: Turn, j0: Journal, s: State, r: nat, called: seq<string>, tools: string -> Reply)
    returns (actions: seq<Action>)
    requires Standing(t, j0, s, r, called, tools)
    ensures Run(t, s, actions).Some? && Agrees(t, j0, tools, Run(t, s, actions).value, r)
    decreases |t.groups| - s.runners[r].group
  {
    var me := s.runners[r];
    var g := me.group;
    var due, ends := ToDispatch(t.groups[g], me.classes), BatchEnds(t, t.groups[g], me.classes, tools);
    StandingIsReady(t, j0, s, r, called, tools);
    var mid := BatchRuns(t, s, r, tools);
    actions := BatchActions(t, me, r, tools);
    var s1 := Run(t, s, actions).value;
    JoinAgrees(t, mid, ends);
    PassGoesOn(t, j0, me.classes, g, called, me.results, tools, s.journal, s1.journal);
    assert !UnsafeTurn(t, j0);
    if BatchVerdict(ends).Completed? {
      if g + 1 == |t.groups| {
        PassEnds(t, j0, me.classes, called + StepIds(due), s1.runners[r].results, tools, s1.journal);
      } else {
        var rest := PassRuns(t, j0, s1, r, called + StepIds(due), tools);
        RunAppend(t, s, actions, rest);
        actions := actions + rest;
      }
    }
  }

  /** For every turn and whatever its tools reply, there is a run of the step relation in which one
      runner starts, is not disturbed, and ends as the program's pass: with the same outcome, the same
      results and the same journal. */
  lemma LoneRunnerAgrees(t: Turn, s: State, r: nat, tools: string -> Reply) returns (actions: seq<Action>)
    requires WellFormed(t) && AllMatch(s.journal, Attempts(t)) && r !in s.runners
    ensures Run(t, s, [Start(r)] + actions).Some?
    ensures Agrees(t, s.journal, tools, Run(t, s, [Start(r)] + actions).value, r)
  {
    var s1 := Apply(t, s, Start(r));
    RunOne(t, s, Start(r));
    actions := [];
    if !UnsafeTurn(t, s.journal) && |t.groups| > 0 {
      var classes := ClassesOf(t, s.journal);
      assert forall x :: x in classes ==> !Unsafe(classes[x]);
      PassStarts(t, s.journal, classes, tools);
      actions := PassRuns(t, s.journal, s1, r, [], tools);
    }
    RunAppend(t, s, [Start(r)], actions);
  }
}
