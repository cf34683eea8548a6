/** One uninterrupted pass over the batches of a turn, against a real manifest, and why a
    recovery pass ends the same way. */
module ToolDispatch {
  import opened Common
  import opened Manifest
  import opened ToolProtocol

  datatype TurnEnd = Completed(results: seq<(string, ToolResult)>) | OutcomeIsUnknown | NeedsApproval | Error

  /** How one tool use ends: replayed when committed, otherwise by its own reply. */
  function MemberEnd(t: Turn, c: Classification, reply: Reply): Member {
    if c.Done? then Replay(c.result)
    else if reply.TransportError? || Unrecordable(t, reply.result) then Uncertain
    else if AcceptedApproval(t, reply.result) then AwaitsApproval
    else Replay(reply.result)
  }

  function BatchEnds(
      t: Turn, batch: seq<Identity>, classes: map<string, Classification>, tools: string -> Reply): seq<Member>
    requires Steps(batch) <= classes.Keys
  {
    seq(|batch|, i requires 0 <= i < |batch| =>
      var x := batch[i].stepId; assert x in Steps(batch); MemberEnd(t, classes[x], tools(x)))
  }

  /** A throw beats an unknown outcome, which beats an approval request. */
  function BatchVerdict(ends: seq<Member>): TurnEnd {
    if Threw in ends then Error
    else if Uncertain in ends then OutcomeIsUnknown
    else if AwaitsApproval in ends then NeedsApproval
    else Completed([])
  }

  function BatchResults(batch: seq<Identity>, ends: seq<Member>): seq<(string, ToolResult)>
    requires |batch| == |ends|
  {
    if batch == [] then []
    else (if ends[0].Returned? then [(batch[0].stepId, ends[0].result)] else []) + BatchResults(batch[1..], ends[1..])
  }

  /** What is due is dispatched in one write, which refuses a step that is due twice or that an
      earlier batch has dispatched. */
  predicate Fresh(due: seq<Identity>, used: set<string>) { DistinctSteps(due) && Steps(due) !! used }

  /** How the batches end when the steps in `used` have been dispatched before. */
  function BatchesEnd(t: Turn, groups: seq<seq<Identity>>, used: set<string>, classes: map<string, Classification>,
                      tools: string -> Reply): TurnEnd
    requires Steps(Flatten(groups)) <= classes.Keys
  {
    if groups == [] then Completed([])
    else
      StepsAppend(groups[0], Flatten(groups[1..]));
      var due, ends := ToDispatch(groups[0], classes), BatchEnds(t, groups[0], classes, tools);
      if !Fresh(due, used) then Error
      else if !BatchVerdict(ends).Completed? then BatchVerdict(ends)
      else
        match BatchesEnd(t, groups[1..], used + Steps(due), classes, tools)
        case Completed(rest) => Completed(BatchResults(groups[0], ends) + rest)
        case other => other
  }

  function ClassesOf(t: Turn, j: Journal): map<string, Classification> {
    map x | x in TurnSteps(t) :: ClassOf(j, x)
  }

  /** How a pass over the turn ends when it starts from journal j. */
  function TurnOutcome(t: Turn, j: Journal, tools: string -> Reply): TurnEnd {
    if UnsafeTurn(t, j) then OutcomeIsUnknown else BatchesEnd(t, t.groups, {}, ClassesOf(t, j), tools)
  }

  function Untouched(t: Turn): map<string, Classification> { map x | x in TurnSteps(t) :: Open(NotStarted) }

  /** The end of a turn that nothing interrupts. */
  function UninterruptedOutcome(t: Turn, tools: string -> Reply): TurnEnd {
    BatchesEnd(t, t.groups, {}, Untouched(t), tools)
  }

  // ---------------------------------------------------------------- crash transparency

  lemma {:induction false} DueAttempts(batch: seq<Identity>, classes: map<string, Classification>)
    ensures forall a :: a in ToDispatch(batch, classes) <==>
                        a in batch && a.stepId in classes && classes[a.stepId] == Open(NotStarted)
    ensures DistinctSteps(batch) ==> DistinctSteps(ToDispatch(batch, classes))
    ensures forall x :: x in StepIds(ToDispatch(batch, classes)) <==> x in Steps(ToDispatch(batch, classes))
  {
    var due := ToDispatch(batch, classes);
    assert forall i :: 0 <= i < |due| ==> StepIds(due)[i] == due[i].stepId;
    if batch != [] {
      var rest := ToDispatch(batch[1..], classes);
      DueAttempts(batch[1..], classes);
      assert batch == [batch[0]] + batch[1..];
    }
  }

  /** With distinct steps nothing is due twice. */
  lemma DueFresh(groups: seq<seq<Identity>>, used: set<string>, classes: map<string, Classification>)
    requires groups != [] && DistinctSteps(Flatten(groups)) && Steps(Flatten(groups)) !! used
    ensures Fresh(ToDispatch(groups[0], classes), used)
    ensures DistinctSteps(Flatten(groups[1..]))
    ensures Steps(Flatten(groups[1..])) !! used + Steps(ToDispatch(groups[0], classes))
  {
    RestSteps(groups, 0);
    assert groups[0..] == groups;
    DueAttempts(groups[0], classes);
    assert Steps(ToDispatch(groups[0], classes)) <= Steps(groups[0]);
  }

  /** Replaying a tool's own committed reply ends like calling the tool. */
  lemma {:induction false} ReplayEndsAlike(
      t: Turn, groups: seq<seq<Identity>>, used: set<string>, also: set<string>, c: map<string, Classification>,
      d: map<string, Classification>, tools: string -> Reply)
    requires Steps(Flatten(groups)) <= c.Keys && Steps(Flatten(groups)) <= d.Keys
    requires DistinctSteps(Flatten(groups)) && Steps(Flatten(groups)) !! used && Steps(Flatten(groups)) !! also
    requires forall x :: x in Steps(Flatten(groups)) ==> MemberEnd(t, c[x], tools(x)) == MemberEnd(t, d[x], tools(x))
    ensures BatchesEnd(t, groups, used, c, tools) == BatchesEnd(t, groups, also, d, tools)
  {
    if groups != [] {
      StepsAppend(groups[0], Flatten(groups[1..]));
      var ends := BatchEnds(t, groups[0], c, tools);
      forall i | 0 <= i < |groups[0]|
        ensures ends[i] == BatchEnds(t, groups[0], d, tools)[i]
      {
        assert groups[0][i].stepId in Steps(groups[0]);
      }
      assert ends == BatchEnds(t, groups[0], d, tools);
      DueFresh(groups, used, c);
      DueFresh(groups, also, d);
      ReplayEndsAlike(t, groups[1..], used + Steps(ToDispatch(groups[0], c)), also + Steps(ToDispatch(groups[0], d)),
                      c, d, tools);
    }
  }

  /** If a crash leaves no attempt unknown or missing and the tools answer alike, the recovery pass
      ends exactly as the uninterrupted turn would have: same results in the same order, or the
      same kind of stop. */
  lemma CrashTransparency(t: Turn, s: State, actions: seq<Action>, tools: string -> Reply)
    requires Initial(t, s) && Run(t, s, actions).Some?
    requires forall a :: a in actions ==> Obeys(a, tools)
    requires !UnsafeTurn(t, Run(t, s, actions).value.journal)
    ensures TurnOutcome(t, Run(t, s, actions).value.journal, tools) == UninterruptedOutcome(t, tools)
  {
    InitialInv(t, s);
    FaithfulRun(t, s, actions, tools);
    var j := Run(t, s, actions).value.journal;
    var c := ClassesOf(t, j);
    forall x | x in TurnSteps(t)
      ensures MemberEnd(t, c[x], tools(x)) == MemberEnd(t, Open(NotStarted), tools(x))
    {
      assert !Unsafe(ClassOf(j, x));
    }
    ReplayEndsAlike(t, t.groups, {}, {}, c, Untouched(t), tools);
  }

  // ---------------------------------------------------------------- the pass itself

  /** The journal entry of a step once its call has been made and its reply handled. */
  function AfterCall(t: Turn, e: Entry, reply: Reply): Entry {
    if reply.TransportError? || Unrecordable(t, reply.result) then Pending(e.id, OutcomeUnknown, e.boundaries, e.last)
    else if AcceptedApproval(t, reply.result) then
      Pending(e.id, NotStarted, e.boundaries + 1, Some(reply.result.envelope.boundary))
    else Committed(e.id, reply.result, e.boundaries, e.last)
  }

  /** The steps a pass calls: those not started, in the batches up to the first that stops. */
  function CalledBy(t: Turn, groups: seq<seq<Identity>>, used: set<string>, classes: map<string, Classification>,
                    tools: string -> Reply): seq<string>
    requires Steps(Flatten(groups)) <= classes.Keys
  {
    if groups == [] then []
    else
      StepsAppend(groups[0], Flatten(groups[1..]));
      var due := ToDispatch(groups[0], classes);
      if !Fresh(due, used) then []
      else if !BatchVerdict(BatchEnds(t, groups[0], classes, tools)).Completed? then StepIds(due)
      else StepIds(due) + CalledBy(t, groups[1..], used + Steps(due), classes, tools)
  }

  function StepIds(attempts: seq<Identity>): seq<string> {
    seq(|attempts|, i requires 0 <= i < |attempts| => attempts[i].stepId)
  }

  /** A committed attempt is replayed without a call: only attempts not started are called, and none
      of them twice. */
  lemma {:induction false} CalledWereNotStarted(
      t: Turn, groups: seq<seq<Identity>>, used: set<string>, classes: map<string, Classification>,
      tools: string -> Reply)
    requires Steps(Flatten(groups)) <= classes.Keys
    ensures var called := CalledBy(t, groups, used, classes, tools);
      && (forall x :: x in called ==> x in classes && classes[x] == Open(NotStarted) && x !in used)
      && AllDifferent(called)
  {
    if groups != [] {
      StepsAppend(groups[0], Flatten(groups[1..]));
      var due := ToDispatch(groups[0], classes);
      DueAttempts(groups[0], classes);
      DueIds(due);
      CalledWereNotStarted(t, groups[1..], used + Steps(due), classes, tools);
      if Fresh(due, used) {
        NoneTwice(StepIds(due), CalledBy(t, groups[1..], used + Steps(due), classes, tools));
      }
    }
  }

  predicate AllDifferent(xs: seq<string>) { forall i, k :: 0 <= i < k < |xs| ==> xs[i] != xs[k] }

  lemma NoneTwice(xs: seq<string>, ys: seq<string>)
    requires AllDifferent(xs) && AllDifferent(ys) && forall y :: y in ys ==> y !in xs
    ensures AllDifferent(xs + ys)
  {
    assert forall i :: 0 <= i < |xs| ==> xs[i] in xs;
  }

  lemma DueIds(due: seq<Identity>)
    ensures forall x :: x in StepIds(due) <==> x in Steps(due)
    ensures DistinctSteps(due) ==> AllDifferent(StepIds(due))
  {
    assert forall i :: 0 <= i < |due| ==> StepIds(due)[i] == due[i].stepId && due[i] in due;
  }

  /** Journal j after the calls to `called`, starting from j0. */
  ghost predicate JournalAfter(t: Turn, j0: Journal, called: seq<string>, tools: string -> Reply, j: Journal) {
    && j.Keys == j0.Keys
    && forall x :: x in j0 ==> j[x] == if x in called then AfterCall(t, j0[x], tools(x)) else j0[x]
  }

  /** The three ways a call is settled. */
  lemma SettledEntry(t: Turn, j: Journal, a: Identity, reply: Reply)
    requires CanSettle(j, a)
    ensures j[a.stepId := AfterCall(t, j[a.stepId], reply)]
            == if reply.TransportError? || Unrecordable(t, reply.result) then j
               else if AcceptedApproval(t, reply.result) then ResetOne(j, a, reply.result.envelope.boundary)
               else CommitOne(j, a, reply.result)
  {
  }

  /** Call one dispatched tool and settle its attempt. */
  method CallDispatchedTool(t: Turn, m: RunManifest, a: Identity, tools: string -> Reply) returns (end: Member)
    requires m.Valid() && m.present && CanSettle(m.journal, a)
    modifies m
    ensures m.Valid() && m.present
    ensures m.journal == old(m.journal)[a.stepId := AfterCall(t, old(m.journal)[a.stepId], tools(a.stepId))]
    ensures end == MemberEnd(t, Open(NotStarted), tools(a.stepId))
  {
    var reply := tools(a.stepId);
    SettledEntry(t, m.journal, a, reply);
    if reply.TransportError? { return Uncertain; }
    if AcceptedApproval(t, reply.result) {
      var reset := m.ResetOutcomeUnknownAtApprovalBoundary(a, reply.result.envelope.boundary);
      assert reset <==> !Unrecordable(t, reply.result);
      return if reset then AwaitsApproval else Uncertain;
    }
    var committed := m.CommitToolAttempt(a, reply.result);
    return Replay(reply.result);
  }

  /** A batch under way: `due` is marked, and the calls of `settled` have been handled. */
  ghost predicate Midway(
      t: Turn, j0: Journal, due: set<string>, settled: set<string>, tools: string -> Reply, j: Journal) {
    && j.Keys == j0.Keys
    && (forall x :: x in j0 && x !in due ==> j[x] == j0[x])
    && (forall x :: x in j0 && x in due && x in settled ==> j[x] == AfterCall(t, j0[x], tools(x)))
    && (forall x :: x in j0 && x in due && x !in settled && j0[x].Pending? ==> j[x] == j0[x].(state := OutcomeUnknown))
  }

  predicate Startable(j: Journal, classes: map<string, Classification>, a: Identity) {
    a.stepId in classes
    && (classes[a.stepId].Done? || (classes[a.stepId] == Open(NotStarted) && CanMarkOne(j, a)))
  }

  lemma SettleOne(
      t: Turn, j0: Journal, due: set<string>, settled: set<string>, tools: string -> Reply, j: Journal, x: string)
    requires Midway(t, j0, due, settled, tools, j)
    requires x in due && x !in settled && x in j0 && j0[x].Pending?
    ensures Midway(t, j0, due, settled + {x}, tools, j[x := AfterCall(t, j[x], tools(x))])
  {
  }

  /** One batch: mark what is due in one write, then replay or call each member.  Nothing happens
      when the write is refused. */
  method ExecuteBatch(
      t: Turn, m: RunManifest, batch: seq<Identity>, classes: map<string, Classification>, tools: string -> Reply)
    returns (ok: bool, ends: seq<Member>)
    requires m.Valid() && m.present && Steps(batch) <= classes.Keys
    requires forall a :: a in batch ==> !Unsafe(classes[a.stepId])
    modifies m
    ensures m.Valid() && m.present
    ensures ok <==> CanMark(old(m.journal), ToDispatch(batch, classes))
    ensures ok ==> ends == BatchEnds(t, batch, classes, tools)
                   && JournalAfter(t, old(m.journal), StepIds(ToDispatch(batch, classes)), tools, m.journal)
    ensures !ok ==> m.journal == old(m.journal)
  {
    var due := ToDispatch(batch, classes);
    ghost var j0 := m.journal;
    if due != [] {
      ok := m.MarkToolIntentsDispatched(due);
      if !ok { return false, []; }
    }
    ok := true;
    MarkedBatch(t, j0, batch, classes, tools);
    MarkNothing(j0);
    ends := CallBatch(t, m, batch, classes, tools, j0, due);
    BatchSettled(t, j0, batch, classes, tools, m.journal);
  }

  lemma MarkNothing(j: Journal)
    ensures MarkAll(j, []) == j
  {
    assert forall x :: x in j ==> !HasStep([], x);
  }

  lemma MarkedBatch(
      t: Turn, j0: Journal, batch: seq<Identity>, classes: map<string, Classification>, tools: string -> Reply)
    requires Steps(batch) <= classes.Keys && forall a :: a in batch ==> !Unsafe(classes[a.stepId])
    requires CanMark(j0, ToDispatch(batch, classes))
    ensures forall a :: a in batch ==> Startable(j0, classes, a)
    ensures Midway(t, j0, Steps(ToDispatch(batch, classes)), {}, tools, MarkAll(j0, ToDispatch(batch, classes)))
  {
    var due := ToDispatch(batch, classes);
    DueAttempts(batch, classes);
    MarkEffect(j0, due);
    assert forall a :: a in due ==> CanMarkOne(j0, a) && a.stepId in Steps(due);
  }

  lemma BatchSettled(t: Turn, j0: Journal, batch: seq<Identity>, classes: map<string, Classification>,
                     tools: string -> Reply, j: Journal)
    requires Steps(batch) <= classes.Keys
    requires Midway(t, j0, Steps(ToDispatch(batch, classes)), Steps(batch), tools, j)
    ensures JournalAfter(t, j0, StepIds(ToDispatch(batch, classes)), tools, j)
  {
    DueAttempts(batch, classes);
    assert Steps(ToDispatch(batch, classes)) <= Steps(batch);
  }

  lemma DueTail(batch: seq<Identity>, classes: map<string, Classification>)
    requires batch != [] && DistinctSteps(ToDispatch(batch, classes))
    ensures DistinctSteps(ToDispatch(batch[1..], classes))
    ensures batch[0] in ToDispatch(batch, classes) ==> batch[0].stepId !in Steps(ToDispatch(batch[1..], classes))
  {
    var due, rest := ToDispatch(batch, classes), ToDispatch(batch[1..], classes);
    var skip := |due| - |rest|;
    assert forall n :: 0 <= n < |rest| ==> rest[n] == due[skip + n];
    if skip == 0 {
      DueAttempts(batch, classes);
      assert batch[0] !in due;
    } else {
      assert due[0] == batch[0];
    }
  }

  lemma {:induction false} DueOnce(batch: seq<Identity>, classes: map<string, Classification>, i: nat, k: nat)
    requires DistinctSteps(ToDispatch(batch, classes)) && i < k < |batch| && batch[i].stepId == batch[k].stepId
    ensures batch[k].stepId !in classes || classes[batch[k].stepId] != Open(NotStarted)
  {
    DueTail(batch, classes);
    if i > 0 {
      DueOnce(batch[1..], classes, i - 1, k - 1);
    } else {
      DueAttempts(batch, classes);
      DueAttempts(batch[1..], classes);
      assert batch[1..][k - 1] == batch[k];
    }
  }

  lemma NotYetSettled(batch: seq<Identity>, classes: map<string, Classification>, n: nat)
    requires DistinctSteps(ToDispatch(batch, classes)) && n < |batch|
    requires batch[n].stepId in classes && classes[batch[n].stepId] == Open(NotStarted)
    ensures batch[n].stepId !in StepsUpTo(batch, n)
  {
    if i :| 0 <= i < n && batch[i].stepId == batch[n].stepId { DueOnce(batch, classes, i, n); }
  }

  /** The members of a marked batch, one after the other. */
  method CallBatch(t: Turn, m: RunManifest, batch: seq<Identity>, classes: map<string, Classification>,
                   tools: string -> Reply, ghost j0: Journal, ghost due: seq<Identity>)
    returns (ends: seq<Member>)
    requires m.Valid() && m.present && Steps(batch) <= classes.Keys
    requires forall a :: a in batch ==> Startable(j0, classes, a)
    requires due == ToDispatch(batch, classes) && DistinctSteps(due)
    requires Midway(t, j0, Steps(due), {}, tools, m.journal)
    modifies m
    ensures m.Valid() && m.present
    ensures ends == BatchEnds(t, batch, classes, tools)
    ensures Midway(t, j0, Steps(due), Steps(batch), tools, m.journal)
  {
    ends := [];
    assert StepsUpTo(batch, 0) == {};
    for n := 0 to |batch|
      invariant m.Valid() && m.present
      invariant ends == BatchEnds(t, batch, classes, tools)[..n]
      invariant Midway(t, j0, Steps(due), StepsUpTo(batch, n), tools, m.journal)
    {
      var end := CallMember(t, m, batch, n, classes, tools, j0, due);
      NextEnd(t, batch, classes, tools, n);
      ends := ends + [end];
    }
    assert StepsUpTo(batch, |batch|) == Steps(batch);
  }

  lemma NextEnd(
      t: Turn, batch: seq<Identity>, classes: map<string, Classification>, tools: string -> Reply, n: nat)
    requires Steps(batch) <= classes.Keys && n < |batch|
    ensures batch[n].stepId in classes
    ensures BatchEnds(t, batch, classes, tools)[..n + 1]
            == BatchEnds(t, batch, classes, tools)[..n]
               + [MemberEnd(t, classes[batch[n].stepId], tools(batch[n].stepId))]
  {
    assert batch[n].stepId in Steps(batch);
  }

  /** Member n of the batch is replayed or called. */
  method CallMember(t: Turn, m: RunManifest, batch: seq<Identity>, n: nat, classes: map<string, Classification>,
                    tools: string -> Reply, ghost j0: Journal, ghost due: seq<Identity>)
    returns (end: Member)
    requires m.Valid() && m.present && n < |batch| && Startable(j0, classes, batch[n])
    requires due == ToDispatch(batch, classes) && DistinctSteps(due)
    requires Midway(t, j0, Steps(due), StepsUpTo(batch, n), tools, m.journal)
    modifies m
    ensures m.Valid() && m.present
    ensures end == MemberEnd(t, classes[batch[n].stepId], tools(batch[n].stepId))
    ensures Midway(t, j0, Steps(due), StepsUpTo(batch, n + 1), tools, m.journal)
  {
    var a := batch[n];
    SeenBefore(batch, n);
    DueAttempts(batch, classes);
    if classes[a.stepId].Done? {
      assert a.stepId !in Steps(due);
      return Replay(classes[a.stepId].result);
    }
    NotYetSettled(batch, classes, n);
    assert a in due && a.stepId in Steps(due);
    SettleOne(t, j0, Steps(due), StepsUpTo(batch, n), tools, m.journal, a.stepId);
    end := CallDispatchedTool(t, m, a, tools);
  }

  function After(results: seq<(string, ToolResult)>, end: TurnEnd): TurnEnd {
    if end.Completed? then Completed(results + end.results) else end
  }

  lemma JournalAfterBoth(
      t: Turn, j0: Journal, xs: seq<string>, j1: Journal, ys: seq<string>, j2: Journal, tools: string -> Reply)
    requires JournalAfter(t, j0, xs, tools, j1) && JournalAfter(t, j1, ys, tools, j2)
    requires forall x :: x in xs ==> x !in ys
    ensures JournalAfter(t, j0, xs + ys, tools, j2)
  {
  }

  lemma {:induction false} RestSteps(groups: seq<seq<Identity>>, g: nat)
    requires g < |groups|
    ensures groups[g..][0] == groups[g] && groups[g..][1..] == groups[g + 1..]
    ensures Steps(Flatten(groups[g..])) == Steps(groups[g]) + Steps(Flatten(groups[g + 1..]))
    ensures DistinctSteps(Flatten(groups[g..])) ==>
      DistinctSteps(groups[g]) && DistinctSteps(Flatten(groups[g + 1..]))
      && Steps(groups[g]) !! Steps(Flatten(groups[g + 1..]))
  {
    var flat, batch, rest := Flatten(groups[g..]), groups[g], Flatten(groups[g + 1..]);
    StepsAppend(batch, rest);
    assert flat == batch + rest;
    assert forall i :: 0 <= i < |batch| ==> batch[i] == flat[i];
    assert forall k :: 0 <= k < |rest| ==> rest[k] == flat[|batch| + k];
  }

  /** Before batch g: `called` holds the calls made so far, all of them committed. */
  ghost predicate BeforeBatch(t: Turn, j0: Journal, classes: map<string, Classification>, g: nat, called: seq<string>,
                         tools: string -> Reply, j: Journal) {
    && g <= |t.groups|
    && JournalAfter(t, j0, called, tools, j)
    && Steps(Flatten(t.groups[g..])) <= classes.Keys
    && forall x :: x in called ==> IsCommitted(j, x)
  }

  function StepSet(called: seq<string>): set<string> { set x | x in called }

  ghost predicate Ready(t: Turn, j0: Journal, classes: map<string, Classification>) {
    && AllMatch(j0, Attempts(t)) && classes == ClassesOf(t, j0)
    && forall x :: x in classes ==> !Unsafe(classes[x])
  }

  /** The write that marks a batch succeeds exactly when nothing due has been dispatched. */
  lemma MarkableWhenFresh(t: Turn, j0: Journal, classes: map<string, Classification>, g: nat, called: seq<string>,
                          tools: string -> Reply, j: Journal)
    requires Ready(t, j0, classes) && g < |t.groups| && BeforeBatch(t, j0, classes, g, called, tools, j)
    ensures Steps(t.groups[g]) <= classes.Keys && forall a :: a in t.groups[g] ==> !Unsafe(classes[a.stepId])
    ensures CanMark(j, ToDispatch(t.groups[g], classes)) <==> Fresh(ToDispatch(t.groups[g], classes), StepSet(called))
  {
    RestSteps(t.groups, g);
    StepsOfFlatten(t.groups, g);
    var due := ToDispatch(t.groups[g], classes);
    DueAttempts(t.groups[g], classes);
    forall a | a in due
      ensures CanMarkOne(j, a) <==> a.stepId !in StepSet(called)
      ensures a.stepId in Steps(due)
    {
      assert a in Attempts(t) && Matches(j0, a);
    }
  }

  lemma ReturnedCommits(t: Turn, e: Entry, reply: Reply)
    ensures MemberEnd(t, Open(NotStarted), reply).Returned? ==> AfterCall(t, e, reply).Committed?
  {
  }

  lemma AllReturned(t: Turn, batch: seq<Identity>, classes: map<string, Classification>, tools: string -> Reply)
    requires Steps(batch) <= classes.Keys && BatchVerdict(BatchEnds(t, batch, classes, tools)).Completed?
    ensures forall i :: 0 <= i < |batch| ==> BatchEnds(t, batch, classes, tools)[i].Returned?
    ensures forall i :: 0 <= i < |batch| ==>
      batch[i].stepId in classes && MemberEnd(t, classes[batch[i].stepId], tools(batch[i].stepId)).Returned?
  {
    var ends := BatchEnds(t, batch, classes, tools);
    forall i | 0 <= i < |batch|
      ensures ends[i].Returned? && batch[i].stepId in Steps(batch)
    {
      assert ends[i] in ends;
    }
  }

  /** The calls of a batch that completes are committed. */
  lemma CompletedCommits(t: Turn, batch: seq<Identity>, classes: map<string, Classification>, tools: string -> Reply,
                         j: Journal, j': Journal)
    requires Steps(batch) <= classes.Keys && BatchVerdict(BatchEnds(t, batch, classes, tools)).Completed?
    requires CanMark(j, ToDispatch(batch, classes))
    requires JournalAfter(t, j, StepIds(ToDispatch(batch, classes)), tools, j')
    ensures forall x :: x in StepIds(ToDispatch(batch, classes)) ==> IsCommitted(j', x)
  {
    var due := ToDispatch(batch, classes);
    DueAttempts(batch, classes);
    DueIds(due);
    AllReturned(t, batch, classes, tools);
    forall x | x in StepIds(due)
      ensures IsCommitted(j', x)
    {
      var a :| a in due && a.stepId == x;
      var i :| 0 <= i < |batch| && batch[i] == a;
      assert CanMarkOne(j, a);
      ReturnedCommits(t, j[x], tools(x));
    }
  }

  lemma CalledDisjoint(due: seq<Identity>, called: seq<string>)
    requires Fresh(due, StepSet(called))
    ensures forall x :: x in called ==> x !in StepIds(due)
    ensures StepSet(called + StepIds(due)) == StepSet(called) + Steps(due)
  {
    DueIds(due);
  }

  lemma BatchDone(t: Turn, j0: Journal, classes: map<string, Classification>, g: nat, called: seq<string>,
                  tools: string -> Reply, j: Journal, j': Journal)
    requires Ready(t, j0, classes) && g < |t.groups| && BeforeBatch(t, j0, classes, g, called, tools, j)
    requires Fresh(ToDispatch(t.groups[g], classes), StepSet(called))
    requires JournalAfter(t, j, StepIds(ToDispatch(t.groups[g], classes)), tools, j')
    ensures Steps(t.groups[g]) <= classes.Keys
    ensures JournalAfter(t, j0, called + StepIds(ToDispatch(t.groups[g], classes)), tools, j')
    ensures BatchVerdict(BatchEnds(t, t.groups[g], classes, tools)).Completed? ==>
      BeforeBatch(t, j0, classes, g + 1, called + StepIds(ToDispatch(t.groups[g], classes)), tools, j')
  {
    var due := ToDispatch(t.groups[g], classes);
    RestSteps(t.groups, g);
    MarkableWhenFresh(t, j0, classes, g, called, tools, j);
    CalledDisjoint(due, called);
    JournalAfterBoth(t, j0, called, j, StepIds(due), j', tools);
    if BatchVerdict(BatchEnds(t, t.groups[g], classes, tools)).Completed? {
      CompletedCommits(t, t.groups[g], classes, tools, j, j');
    }
  }

  /** executePreparedToolUseGroups, when every journal write succeeds. */
  method ExecutePreparedToolUseGroups(t: Turn, m: RunManifest, tools: string -> Reply)
    returns (end: TurnEnd, called: seq<string>)
    requires m.Valid() && m.present && AllMatch(m.journal, Attempts(t))
    modifies m
    ensures m.Valid() && m.present
    ensures end == TurnOutcome(t, old(m.journal), tools)
    ensures JournalAfter(t, old(m.journal), called, tools, m.journal)
    ensures called == if UnsafeTurn(t, old(m.journal)) then []
                      else CalledBy(t, t.groups, {}, ClassesOf(t, old(m.journal)), tools)
  {
    ghost var j0 := m.journal;
    var classes := Classified(t, m);
    if exists x :: x in classes && Unsafe(classes[x]) {
      return OutcomeIsUnknown, [];
    }
    assert !UnsafeTurn(t, j0) by {
      assert forall x :: x in TurnSteps(t) ==> x in classes;
    }
    end, called := ExecuteBatches(t, m, classes, tools);
  }

  lemma AfterTwice(a: seq<(string, ToolResult)>, b: seq<(string, ToolResult)>, end: TurnEnd)
    ensures After(a, After(b, end)) == After(a + b, end)
  {
    if end.Completed? { ConcatAssoc(a, b, end.results); }
  }

  lemma UnrollEnd(t: Turn, used: set<string>, classes: map<string, Classification>, g: nat, tools: string -> Reply,
                  results: seq<(string, ToolResult)>)
    requires g < |t.groups| && Steps(Flatten(t.groups[g..])) <= classes.Keys
    requires Fresh(ToDispatch(t.groups[g], classes), used)
    ensures Steps(t.groups[g]) <= classes.Keys && Steps(Flatten(t.groups[g + 1..])) <= classes.Keys
    ensures var due, ends := ToDispatch(t.groups[g], classes), BatchEnds(t, t.groups[g], classes, tools);
      After(results, BatchesEnd(t, t.groups[g..], used, classes, tools))
      == if !BatchVerdict(ends).Completed? then BatchVerdict(ends)
         else After(results + BatchResults(t.groups[g], ends),
                    BatchesEnd(t, t.groups[g + 1..], used + Steps(due), classes, tools))
  {
    RestSteps(t.groups, g);
    var due, ends := ToDispatch(t.groups[g], classes), BatchEnds(t, t.groups[g], classes, tools);
    if BatchVerdict(ends).Completed? {
      AfterTwice(results, BatchResults(t.groups[g], ends),
                 BatchesEnd(t, t.groups[g + 1..], used + Steps(due), classes, tools));
    }
  }

  lemma UnrollCalled(t: Turn, used: set<string>, classes: map<string, Classification>, g: nat, tools: string -> Reply,
                     called: seq<string>)
    requires g < |t.groups| && Steps(Flatten(t.groups[g..])) <= classes.Keys
    requires Fresh(ToDispatch(t.groups[g], classes), used)
    ensures Steps(t.groups[g]) <= classes.Keys && Steps(Flatten(t.groups[g + 1..])) <= classes.Keys
    ensures var due := ToDispatch(t.groups[g], classes);
      called + CalledBy(t, t.groups[g..], used, classes, tools)
      == if !BatchVerdict(BatchEnds(t, t.groups[g], classes, tools)).Completed? then called + StepIds(due)
         else called + StepIds(due) + CalledBy(t, t.groups[g + 1..], used + Steps(due), classes, tools)
  {
    RestSteps(t.groups, g);
    var due := ToDispatch(t.groups[g], classes);
    ConcatAssoc(called, StepIds(due), CalledBy(t, t.groups[g + 1..], used + Steps(due), classes, tools));
  }

  /** A refused write ends the pass with an error. */
  lemma RefusedEnds(t: Turn, used: set<string>, classes: map<string, Classification>, g: nat, tools: string -> Reply)
    requires g < |t.groups| && Steps(Flatten(t.groups[g..])) <= classes.Keys
    requires !Fresh(ToDispatch(t.groups[g], classes), used)
    ensures BatchesEnd(t, t.groups[g..], used, classes, tools) == Error
    ensures CalledBy(t, t.groups[g..], used, classes, tools) == []
  {
    RestSteps(t.groups, g);
  }

  /** Before batch g, with the results so far: what the rest of the pass adds makes up the whole. */
  ghost predicate OnTheWay(t: Turn, j0: Journal, classes: map<string, Classification>, g: nat, called: seq<string>,
                           results: seq<(string, ToolResult)>, tools: string -> Reply, j: Journal) {
    && Steps(Attempts(t)) <= classes.Keys && BeforeBatch(t, j0, classes, g, called, tools, j)
    && BatchesEnd(t, t.groups, {}, classes, tools)
       == After(results, BatchesEnd(t, t.groups[g..], StepSet(called), classes, tools))
    && CalledBy(t, t.groups, {}, classes, tools)
       == called + CalledBy(t, t.groups[g..], StepSet(called), classes, tools)
  }

  lemma PassStarts(t: Turn, j0: Journal, classes: map<string, Classification>, tools: string -> Reply)
    requires Ready(t, j0, classes)
    ensures OnTheWay(t, j0, classes, 0, [], [], tools, j0)
  {
    assert t.groups[0..] == t.groups && StepSet([]) == {};
  }

  lemma PassEnds(t: Turn, j0: Journal, classes: map<string, Classification>, called: seq<string>,
                 results: seq<(string, ToolResult)>, tools: string -> Reply, j: Journal)
    requires OnTheWay(t, j0, classes, |t.groups|, called, results, tools, j)
    ensures BatchesEnd(t, t.groups, {}, classes, tools) == Completed(results)
    ensures CalledBy(t, t.groups, {}, classes, tools) == called
  {
    assert t.groups[|t.groups|..] == [];
  }

  lemma PassGoesOn(t: Turn, j0: Journal, classes: map<string, Classification>, g: nat, called: seq<string>,
                   results: seq<(string, ToolResult)>, tools: string -> Reply, j: Journal, j': Journal)
    requires Ready(t, j0, classes) && g < |t.groups| && OnTheWay(t, j0, classes, g, called, results, tools, j)
    requires Fresh(ToDispatch(t.groups[g], classes), StepSet(called))
    requires JournalAfter(t, j, StepIds(ToDispatch(t.groups[g], classes)), tools, j')
    ensures Steps(t.groups[g]) <= classes.Keys
    ensures var ends := BatchEnds(t, t.groups[g], classes, tools);
      var more := called + StepIds(ToDispatch(t.groups[g], classes));
      if BatchVerdict(ends).Completed? then
        OnTheWay(t, j0, classes, g + 1, more, results + BatchResults(t.groups[g], ends), tools, j')
      else
        && BatchesEnd(t, t.groups, {}, classes, tools) == BatchVerdict(ends)
        && CalledBy(t, t.groups, {}, classes, tools) == more && JournalAfter(t, j0, more, tools, j')
  {
    BatchDone(t, j0, classes, g, called, tools, j, j');
    UnrollEnd(t, StepSet(called), classes, g, tools, results);
    UnrollCalled(t, StepSet(called), classes, g, tools, called);
    CalledDisjoint(ToDispatch(t.groups[g], classes), called);
  }

  method ExecuteBatches(t: Turn, m: RunManifest, classes: map<string, Classification>, tools: string -> Reply)
    returns (end: TurnEnd, called: seq<string>)
    requires m.Valid() && m.present && Ready(t, m.journal, classes)
    modifies m
    ensures m.Valid() && m.present
    ensures end == BatchesEnd(t, t.groups, {}, classes, tools)
    ensures called == CalledBy(t, t.groups, {}, classes, tools)
    ensures JournalAfter(t, old(m.journal), called, tools, m.journal)
  {
    ghost var j0 := m.journal;
    var results: seq<(string, ToolResult)> := [];
    called := [];
    PassStarts(t, j0, classes, tools);
    for g := 0 to |t.groups|
      invariant m.Valid() && m.present && OnTheWay(t, j0, classes, g, called, results, tools, m.journal)
    {
      var batch := t.groups[g];
      MarkableWhenFresh(t, j0, classes, g, called, tools, m.journal);
      ghost var j1 := m.journal;
      var ok, ends := ExecuteBatch(t, m, batch, classes, tools);
      if !ok {
        RefusedEnds(t, StepSet(called), classes, g, tools);
        return Error, called;
      }
      PassGoesOn(t, j0, classes, g, called, results, tools, j1, m.journal);
      called := called + StepIds(ToDispatch(batch, classes));
      var verdict := BatchVerdict(ends);
      if !verdict.Completed? { return verdict, called; }
      results := results + BatchResults(batch, ends);
    }
    PassEnds(t, j0, classes, called, results, tools, m.journal);
    end := Completed(results);
  }

  method Classified(t: Turn, m: RunManifest) returns (classes: map<string, Classification>)
    requires m.Valid() && AllMatch(m.journal, Attempts(t))
    ensures classes == ClassesOf(t, m.journal)
  {
    classes := map[];
    var attempts := Attempts(t);
    for n := 0 to |attempts|
      invariant classes.Keys == Steps(attempts[..n])
      invariant forall x :: x in classes ==> classes[x] == ClassOf(m.journal, x)
    {
      assert attempts[n] in attempts && Matches(m.journal, attempts[n]);
      var c := m.ClassifyToolAttempt(attempts[n]);
      StepsAppend(attempts[..n], [attempts[n]]);
      assert attempts[..n + 1] == attempts[..n] + [attempts[n]];
      classes := classes[attempts[n].stepId := c.value];
    }
    assert attempts[..|attempts|] == attempts;
  }
}
