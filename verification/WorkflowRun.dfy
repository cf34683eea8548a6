/** runWorkflowCommand: the loop that executes a persisted plan, one ready step at a time. */
module WorkflowRun {
  import opened Common
  import opened WorkflowPlan

  /** Stopped is the status "blocked". */
  datatype RunStatus =
    | Idle
    | Running
    | AwaitingApproval
    | Paused
    | Stopped
    | Rejected
    | NeedsRecovery
    | RunCompleted
    | RunFailed

  /** What the surroundings may have done by a control check: nothing, or a new status and
      approval, and at most one sentinel file. */
  datatype Sentinel = NoSentinel | PauseFile | StopFile

  datatype Signal = Signal(external: Option<(RunStatus, bool)>, sentinel: Sentinel)

  /** How the execution of one step ends, seen from the loop. */
  datatype StepEnd = Finished(partial: bool) | SkippedStep | FailedStep | Thrown | OutcomeUnknown | Halted

  datatype RunEnd =
    | AllCompleted
    | StepFailed(id: string)
    | BlockedOn(id: string)
    | Controlled
    | UnknownOutcome(id: string)
    | SelectionDrifted
    | MissingMetadata
    | CannotStart

  predicate ControlStops(status: RunStatus, pendingApproval: bool) {
    pendingApproval || status.AwaitingApproval? || status.Paused? || status.Stopped? || status.NeedsRecovery?
  }

  /** The status and the pending approval that a control check finds, and the status it leaves. */
  function Seen(s: Signal, status: RunStatus): RunStatus {
    if s.external.Some? then s.external.value.0 else status
  }

  function Approval(s: Signal, pending: bool): bool { if s.external.Some? then s.external.value.1 else pending }

  function StatusChecked(s: Signal, status: RunStatus): RunStatus {
    if s.sentinel.PauseFile? then Paused
    else if s.sentinel.StopFile? && Seen(s, status).Running? then Stopped
    else Seen(s, status)
  }

  /** Another run holds the state: it is running, or stopped where it must be resumed or recovered. */
  predicate HeldByAnother(holder: string, run: string, status: RunStatus) {
    holder != run && (status.Running? || ControlStops(status, false))
  }

  // ---------------------------------------------------------------- what a run may do to a plan

  predicate SameShape(p: Plan, q: Plan) {
    |p| == |q| && forall i :: 0 <= i < |p| ==>
      p[i].id == q[i].id && p[i].dependsOn == q[i].dependsOn && p[i].executable == q[i].executable
  }

  /** The plan at the loop top after executing `executed` from `entry`: executed steps are done, a
      step that was in_progress at entry and not executed is done too, the rest is unchanged. */
  ghost predicate Evolved(entry: Plan, executed: seq<string>, plan: Plan) {
    && SameShape(entry, plan)
    && forall i :: 0 <= i < |plan| ==>
         if plan[i].id in executed then DoneStatus(plan[i].status)
         else if executed != [] && entry[i].status.InProgress? then plan[i].status == Completed
         else plan[i].status == entry[i].status
  }

  /** Steps the first syncPlanCurrentStep completes without executing them. */
  ghost predicate Stray(entry: Plan, first: string, id: string) {
    id != first && exists i :: 0 <= i < |entry| && entry[i].id == id && entry[i].status.InProgress?
  }

  ghost predicate NoStray(entry: Plan, first: string) {
    forall i :: 0 <= i < |entry| && entry[i].status.InProgress? ==> entry[i].id == first
  }

  /** Dependencies were done at entry, or executed earlier in this run, or swept as strays. */
  ghost predicate InOrder(entry: Plan, executed: seq<string>) {
    forall k, i, d :: 0 <= k < |executed| && 0 <= i < |entry| && entry[i].id == executed[k]
                      && d in entry[i].dependsOn ==>
      IsDone(entry, d) || d in executed[..k] || Stray(entry, executed[0], d)
  }

  ghost predicate WasOpen(entry: Plan, id: string) {
    exists i :: 0 <= i < |entry| && entry[i].id == id && OpenStatus(entry[i].status)
  }

  ghost predicate ExecutedOnce(entry: Plan, executed: seq<string>) {
    && (forall a, b :: 0 <= a < b < |executed| ==> executed[a] != executed[b])
    && (forall id :: id in executed ==> WasOpen(entry, id))
    && (forall i, k :: 0 <= i < |entry| && 0 < k < |executed| && entry[i].id == executed[k] ==>
          !entry[i].status.InProgress?)
  }

  function OpenCount(plan: Plan): nat {
    if plan == [] then 0 else (if OpenStatus(plan[0].status) then 1 else 0) + OpenCount(plan[1..])
  }

  lemma {:induction false} OpenCountDrops(p: Plan, q: Plan, i: nat)
    requires |p| == |q| && i < |p| && OpenStatus(p[i].status) && !OpenStatus(q[i].status)
    requires forall k :: 0 <= k < |p| && OpenStatus(q[k].status) ==> OpenStatus(p[k].status)
    ensures OpenCount(q) < OpenCount(p)
  {
    assert forall k :: 0 <= k < |p| - 1 ==> p[1..][k] == p[k + 1] && q[1..][k] == q[k + 1];
    if i > 0 {
      OpenCountDrops(p[1..], q[1..], i - 1);
    } else {
      OpenCountKept(p[1..], q[1..]);
    }
  }

  lemma {:induction false} OpenCountKept(p: Plan, q: Plan)
    requires |p| == |q|
    requires forall k :: 0 <= k < |p| && OpenStatus(q[k].status) ==> OpenStatus(p[k].status)
    ensures OpenCount(q) <= OpenCount(p)
  {
    if p != [] {
      assert forall k :: 0 <= k < |p| - 1 ==> p[1..][k] == p[k + 1] && q[1..][k] == q[k + 1];
      OpenCountKept(p[1..], q[1..]);
    }
  }

  // ---------------------------------------------------------------- one iteration, on values

  /** The plan after step i has been made current and then given a done status. */
  function Settle(plan: Plan, i: nat, status: StepStatus): Plan
    requires i < |plan|
  {
    SyncTerminal(SyncCurrent(plan, plan[i].id), plan[i].id, status)
  }

  lemma SettleAt(plan: Plan, i: nat, status: StepStatus, k: nat)
    requires DistinctIds(plan) && i < |plan| && k < |plan|
    ensures |Settle(plan, i, status)| == |plan|
    ensures Settle(plan, i, status)[k] ==
            if k == i then plan[i].(status := status)
            else if plan[k].status.InProgress? then plan[k].(status := Completed)
            else plan[k]
  {
    assert k != i ==> plan[k].id != plan[i].id;
  }

  lemma SettleDistinct(plan: Plan, i: nat, status: StepStatus)
    requires DistinctIds(plan) && i < |plan|
    ensures DistinctIds(Settle(plan, i, status)) && DistinctIds(SyncCurrent(plan, plan[i].id))
  {
  }

  lemma SameIds(p: Plan, q: Plan)
    requires SameShape(p, q) && DistinctIds(p)
    ensures DistinctIds(q)
  {
  }

  lemma SettleEvolves(entry: Plan, executed: seq<string>, plan: Plan, i: nat, status: StepStatus)
    requires DistinctIds(entry) && Evolved(entry, executed, plan) && i < |plan|
    requires OpenStatus(plan[i].status) && DoneStatus(status)
    ensures Evolved(entry, executed + [plan[i].id], Settle(plan, i, status))
  {
    SameIds(entry, plan);
    var after, more := Settle(plan, i, status), executed + [plan[i].id];
    forall k | 0 <= k < |plan|
      ensures after[k].id == plan[k].id && after[k].dependsOn == plan[k].dependsOn
              && after[k].executable == plan[k].executable
      ensures if after[k].id in more then DoneStatus(after[k].status)
              else if entry[k].status.InProgress? then after[k].status == Completed
              else after[k].status == entry[k].status
    {
      SettleAt(plan, i, status, k);
      assert plan[k].id in more <==> plan[k].id in executed || k == i;
    }
  }

  lemma SettleCounts(plan: Plan, i: nat, status: StepStatus)
    requires DistinctIds(plan) && i < |plan| && OpenStatus(plan[i].status) && !OpenStatus(status)
    ensures OpenCount(Settle(plan, i, status)) < OpenCount(plan)
  {
    forall k | 0 <= k < |plan|
      ensures OpenStatus(Settle(plan, i, status)[k].status) ==> OpenStatus(plan[k].status) && k != i
    {
      SettleAt(plan, i, status, k);
    }
    OpenCountDrops(plan, Settle(plan, i, status), i);
  }

  lemma SettleExecutedOnce(entry: Plan, executed: seq<string>, plan: Plan, i: nat)
    requires DistinctIds(entry) && Evolved(entry, executed, plan) && i < |plan| && OpenStatus(plan[i].status)
    requires ExecutedOnce(entry, executed)
    ensures ExecutedOnce(entry, executed + [plan[i].id])
  {
    assert plan[i].id !in executed;
    assert WasOpen(entry, plan[i].id) by {
      assert entry[i].id == plan[i].id;
    }
  }

  lemma DoneBecause(entry: Plan, executed: seq<string>, plan: Plan, d: string)
    requires DistinctIds(entry) && Evolved(entry, executed, plan) && IsDone(plan, d)
    ensures IsDone(entry, d) || d in executed || (executed != [] && Stray(entry, executed[0], d))
  {
    var k := StatusIndex(plan, d);
    StatusAt(entry, k);
    if d !in executed && executed != [] && entry[k].status.InProgress? {
      assert d != executed[0];
    }
  }

  lemma SettleInOrder(entry: Plan, executed: seq<string>, plan: Plan, i: nat)
    requires DistinctIds(entry) && Evolved(entry, executed, plan) && i < |plan|
    requires DependenciesSatisfied(plan, plan[i]) && InOrder(entry, executed)
    ensures InOrder(entry, executed + [plan[i].id])
  {
    var more := executed + [plan[i].id];
    forall k, j, d | 0 <= k < |more| && 0 <= j < |entry| && entry[j].id == more[k] && d in entry[j].dependsOn
      ensures IsDone(entry, d) || d in more[..k] || Stray(entry, more[0], d)
    {
      if k < |executed| {
        assert more[..k] == executed[..k] && more[k] == executed[k];
      } else {
        assert j == i && more[..k] == executed;
        DoneBecause(entry, executed, plan, d);
      }
    }
  }

  // ---------------------------------------------------------------- every exit of a run

  /** The plan when a run returns.  `attempted` lists the steps made current: the executed ones and
      at most one more, which stays in_progress or has failed. */
  ghost predicate Ended(entry: Plan, executed: seq<string>, attempted: seq<string>, plan: Plan) {
    && SameShape(entry, plan)
    && (attempted == executed || (attempted != [] && attempted[..|attempted| - 1] == executed))
    && forall i :: 0 <= i < |plan| ==>
         if plan[i].id in executed then DoneStatus(plan[i].status)
         else if plan[i].id in attempted then plan[i].status.InProgress? || plan[i].status.Failed?
         else if attempted != [] && entry[i].status.InProgress? then plan[i].status == Completed
         else plan[i].status == entry[i].status
  }

  lemma AttemptEnds(entry: Plan, executed: seq<string>, plan: Plan, i: nat)
    requires DistinctIds(entry) && Evolved(entry, executed, plan) && i < |plan| && OpenStatus(plan[i].status)
    ensures Ended(entry, executed, executed + [plan[i].id], SyncCurrent(plan, plan[i].id))
    ensures Ended(entry, executed, executed + [plan[i].id], Settle(plan, i, Failed))
  {
    SameIds(entry, plan);
    var attempted := executed + [plan[i].id];
    assert attempted[..|attempted| - 1] == executed;
    assert forall k :: 0 <= k < |plan| ==> (plan[k].id in attempted <==> plan[k].id in executed || k == i);
    assert plan[i].id !in executed;
  }

  /** A run completes a step without executing it exactly when the plan it found had a step
      in_progress other than the one it picked first. */
  lemma SilentlyCompleted(entry: Plan, executed: seq<string>, attempted: seq<string>, plan: Plan)
    requires DistinctIds(entry) && Ended(entry, executed, attempted, plan) && ExecutedOnce(entry, attempted)
    requires attempted != []
    ensures (forall i :: 0 <= i < |plan| && DoneStatus(plan[i].status) && !DoneStatus(entry[i].status) ==>
               plan[i].id in executed)
            <==> NoStray(entry, attempted[0])
  {
    forall i | 0 <= i < |entry| && entry[i].status.InProgress? && entry[i].id != attempted[0]
      ensures DoneStatus(plan[i].status) && plan[i].id !in executed
    {
      assert plan[i].id == entry[i].id;
      assert forall k :: 0 <= k < |attempted| ==> attempted[k] != entry[i].id;
      assert forall x :: x in executed ==> x in attempted;
    }
    assert forall x :: x in executed ==> x in attempted;
  }

  ghost predicate AllDone(plan: Plan) { forall i :: 0 <= i < |plan| ==> DoneStatus(plan[i].status) }

  ghost predicate NoneOpen(plan: Plan) { forall i :: 0 <= i < |plan| ==> !OpenStatus(plan[i].status) }

  /** At entry no step had failed or carried a status the scheduler does not know. */
  ghost predicate NoneFailed(entry: Plan) {
    forall i :: 0 <= i < |entry| ==> !entry[i].status.Failed? && !entry[i].status.Other?
  }

  /** What "completed" is worth: every step is done exactly when none had failed at entry. */
  lemma CompletedMeans(entry: Plan, executed: seq<string>, plan: Plan)
    requires Ended(entry, executed, executed, plan) && NoneOpen(plan)
    requires ExecutedOnce(entry, executed) && DistinctIds(entry)
    ensures AllDone(plan) <==> NoneFailed(entry)
  {
    forall i | 0 <= i < |entry| && (entry[i].status.Failed? || entry[i].status.Other?)
      ensures !DoneStatus(plan[i].status)
    {
      assert !WasOpen(entry, plan[i].id);
    }
  }

  /** What holds at every loop top, and at every exit. */
  ghost predicate LoopOk(entry: Plan, executed: seq<string>, plan: Plan) {
    DistinctIds(entry) && Evolved(entry, executed, plan) && ExecutedOnce(entry, executed) && InOrder(entry, executed)
  }

  ghost predicate ExitOk(entry: Plan, executed: seq<string>, attempted: seq<string>, plan: Plan) {
    Ended(entry, executed, attempted, plan) && ExecutedOnce(entry, attempted) && InOrder(entry, attempted)
  }

  lemma LoopExit(entry: Plan, executed: seq<string>, plan: Plan)
    requires LoopOk(entry, executed, plan)
    ensures ExitOk(entry, executed, executed, plan)
  {
  }

  /** Step i is made current and becomes done: the loop invariant holds of the longer history. */
  lemma SettleKeepsLoop(entry: Plan, executed: seq<string>, plan: Plan, i: nat, status: StepStatus)
    requires LoopOk(entry, executed, plan) && i < |plan| && OpenStatus(plan[i].status) && DoneStatus(status)
    requires DependenciesSatisfied(plan, plan[i])
    ensures LoopOk(entry, executed + [plan[i].id], Settle(plan, i, status))
    ensures OpenCount(Settle(plan, i, status)) < OpenCount(plan)
  {
    SameIds(entry, plan);
    SettleExecutedOnce(entry, executed, plan, i);
    SettleInOrder(entry, executed, plan, i);
    SettleEvolves(entry, executed, plan, i, status);
    SettleCounts(plan, i, status);
  }

  lemma AttemptExits(entry: Plan, executed: seq<string>, plan: Plan, i: nat)
    requires LoopOk(entry, executed, plan) && i < |plan| && OpenStatus(plan[i].status)
    requires DependenciesSatisfied(plan, plan[i])
    ensures ExitOk(entry, executed, executed + [plan[i].id], SyncCurrent(plan, plan[i].id))
    ensures ExitOk(entry, executed, executed + [plan[i].id], Settle(plan, i, Failed))
  {
    SettleExecutedOnce(entry, executed, plan, i);
    SettleInOrder(entry, executed, plan, i);
    AttemptEnds(entry, executed, plan, i);
  }

  /** The order a reader expects: every dependency was done at entry or executed earlier. */
  ghost predicate StrictOrder(entry: Plan, executed: seq<string>) {
    forall k, i, d :: 0 <= k < |executed| && 0 <= i < |entry| && entry[i].id == executed[k]
                      && d in entry[i].dependsOn ==>
      IsDone(entry, d) || d in executed[..k]
  }

  /** Some open step that a run may still execute has a stray among its dependencies. */
  ghost predicate ReliesOnStray(entry: Plan, first: string) {
    exists i, d :: 0 <= i < |entry| && OpenStatus(entry[i].status) && !Stray(entry, first, entry[i].id)
                   && d in entry[i].dependsOn && Stray(entry, first, d)
  }

  /** A run that was not started on such a plan keeps the strict order, wherever it stops. */
  lemma StrictUnlessStray(entry: Plan, executed: seq<string>, attempted: seq<string>, plan: Plan)
    requires ExitOk(entry, executed, attempted, plan) && attempted != [] && DistinctIds(entry)
    requires !ReliesOnStray(entry, attempted[0])
    ensures StrictOrder(entry, attempted)
  {
    var first := attempted[0];
    forall k, i, d | 0 <= k < |attempted| && 0 <= i < |entry| && entry[i].id == attempted[k]
                     && d in entry[i].dependsOn
      ensures IsDone(entry, d) || d in attempted[..k]
    {
      assert WasOpen(entry, attempted[k]);
      assert !Stray(entry, first, entry[i].id);
      assert !Stray(entry, first, d);
    }
  }

  /** Without strays no step relies on one. */
  lemma NoStrayMeansStrictOrder(entry: Plan, executed: seq<string>, attempted: seq<string>, plan: Plan)
    requires ExitOk(entry, executed, attempted, plan) && attempted != [] && NoStray(entry, attempted[0])
    ensures StrictOrder(entry, attempted) && !ReliesOnStray(entry, attempted[0])
  {
    forall k, i, d | 0 <= k < |attempted| && 0 <= i < |entry| && entry[i].id == attempted[k]
                     && d in entry[i].dependsOn
      ensures IsDone(entry, d) || d in attempted[..k]
    {
      assert !Stray(entry, attempted[0], d);
    }
  }

  /** A stray is not done at entry and is never executed. */
  lemma StrayNeverRan(entry: Plan, executed: seq<string>, d: string)
    requires DistinctIds(entry) && ExecutedOnce(entry, executed) && executed != [] && Stray(entry, executed[0], d)
    ensures !IsDone(entry, d) && d !in executed
  {
    var j :| 0 <= j < |entry| && entry[j].id == d && entry[j].status.InProgress?;
    StatusAt(entry, j);
    assert forall k :: 0 < k < |executed| ==> executed[k] != entry[j].id;
  }

  /** The exact condition: a run that works the whole plan off keeps the strict order if and only if
      no step open at entry, itself not a stray, depends on a stray. */
  lemma StrictOrderExactly(entry: Plan, executed: seq<string>, plan: Plan)
    requires ExitOk(entry, executed, executed, plan) && NoneOpen(plan) && executed != [] && DistinctIds(entry)
    ensures StrictOrder(entry, executed) <==> !ReliesOnStray(entry, executed[0])
  {
    var first := executed[0];
    if i, d :| 0 <= i < |entry| && OpenStatus(entry[i].status) && !Stray(entry, first, entry[i].id)
               && d in entry[i].dependsOn && Stray(entry, first, d) {
      assert plan[i].id == entry[i].id && !OpenStatus(plan[i].status);
      assert entry[i].id in executed;
      var k :| 0 <= k < |executed| && executed[k] == entry[i].id;
      StrayNeverRan(entry, executed, d);
      assert d !in executed[..k];
      assert !StrictOrder(entry, executed);
    } else {
      StrictUnlessStray(entry, executed, executed, plan);
    }
  }

  const STRAY_PLAN: Plan := [PlanStep("a", [], true, Pending), PlanStep("d", [], true, InProgress),
                             PlanStep("y", ["d"], true, Pending)]

  lemma StrayPlanOrder()
    ensures DistinctIds(STRAY_PLAN) && IsSelection(STRAY_PLAN, Selected(0))
    ensures IsSelection(Settle(STRAY_PLAN, 0, Completed), Selected(2))
    ensures IsSelection(Settle(Settle(STRAY_PLAN, 0, Completed), 2, Completed), NothingOpen)
  {
    var entry := STRAY_PLAN;
    assert entry[0].id == "a" && entry[1].id == "d" && entry[2].id == "y" && "a" != "d" && "d" != "y" && "a" != "y";
    var next := Settle(entry, 0, Completed);
    SettleAt(entry, 0, Completed, 0);
    SettleAt(entry, 0, Completed, 1);
    SettleAt(entry, 0, Completed, 2);
    SameIds(entry, next);
    StatusAt(next, 1);
    var last := Settle(next, 2, Completed);
    SettleAt(next, 2, Completed, 0);
    SettleAt(next, 2, Completed, 1);
    SettleAt(next, 2, Completed, 2);
  }

  /** With one, a whole run executes "a" and then "y", which depends on "d": making "a" current
      completes the in_progress "d", and "d" never runs. */
  lemma StrayBreaksStrictOrder()
    ensures var exec := (id: string) => Finished(false);
            var plans := [STRAY_PLAN, Settle(STRAY_PLAN, 0, Completed),
                          Settle(Settle(STRAY_PLAN, 0, Completed), 2, Completed)];
            && DistinctIds(STRAY_PLAN) && Scheduled(STRAY_PLAN, exec, ["a", "y"], plans)
            && LoopEnds(plans[2], exec, AllCompleted, ["a", "y"], ["a", "y"], plans[2], false)
            && ReliesOnStray(STRAY_PLAN, "a") && !StrictOrder(STRAY_PLAN, ["a", "y"])
  {
    var entry, exec := STRAY_PLAN, (id: string) => Finished(false);
    assert entry[0].id == "a" && entry[1].id == "d" && entry[2].id == "y" && "a" != "d" && "d" != "y" && "a" != "y";
    StrayPlanOrder();
    var plans := [entry, Settle(entry, 0, Completed), Settle(Settle(entry, 0, Completed), 2, Completed)];
    SettleDistinct(entry, 0, Completed);
    assert TakesFirst(plans[0], exec, "a", plans[1]);
    SettleAt(entry, 0, Completed, 2);
    assert TakesFirst(plans[1], exec, "y", plans[2]);
    assert Stray(entry, "a", "d") && !Stray(entry, "a", entry[2].id) && "d" in entry[2].dependsOn;
    assert ReliesOnStray(entry, "a");
    StatusAt(entry, 1);
    var executed := ["a", "y"];
    assert executed[1] == entry[2].id && "d" !in executed[..1] && !IsDone(entry, "d");
  }

  const FAILED_PLAN: Plan := [PlanStep("a", [], true, Pending), PlanStep("f", [], true, Failed)]

  /** A whole run that ends completed although a step has failed: only the open step is executed. */
  lemma CompletedDespiteFailure()
    ensures var exec := (id: string) => Finished(false);
            var plans := [FAILED_PLAN, Settle(FAILED_PLAN, 0, Completed)];
            && DistinctIds(FAILED_PLAN) && Scheduled(FAILED_PLAN, exec, ["a"], plans)
            && LoopEnds(plans[1], exec, AllCompleted, ["a"], ["a"], plans[1], false)
            && plans[1][1].status == Failed && !AllDone(plans[1])
  {
    var entry, exec := FAILED_PLAN, (id: string) => Finished(false);
    assert entry[0].id == "a" && entry[1].id == "f" && "a" != "f";
    SettleAt(entry, 0, Completed, 0);
    SettleAt(entry, 0, Completed, 1);
    assert IsSelection(entry, Selected(0));
    assert TakesFirst(entry, exec, "a", Settle(entry, 0, Completed));
  }

  ghost predicate AllDoneBy(exec: string -> StepEnd, executed: seq<string>) {
    forall id :: id in executed ==> exec(id).Finished? || exec(id).SkippedStep?
  }

  /** The plan before each executed step and after the last one: every time the first ready step is
      taken, and it is done as its execution ended. */
  ghost predicate Scheduled(entry: Plan, exec: string -> StepEnd, executed: seq<string>, plans: seq<Plan>) {
    && |plans| == |executed| + 1 && plans[0] == entry
    && forall n :: 0 <= n < |executed| ==> TakesFirst(plans[n], exec, executed[n], plans[n + 1])
  }

  ghost predicate TakesFirst(before: Plan, exec: string -> StepEnd, id: string, after: Plan) {
    && (exec(id).Finished? || exec(id).SkippedStep?)
    && exists i: nat :: IsSelection(before, Selected(i)) && before[i].id == id
                        && after == Settle(before, i, DoneAs(exec(id)))
  }

  /** Why the loop ends although no step is made current. */
  ghost predicate EndsAtTop(top: Plan, end: RunEnd, halted: bool) {
    match end
    case Controlled => halted
    case MissingMetadata => LacksMetadata(top)
    case BlockedOn(_) => IsBlocked(top)
    case AllCompleted => IsSelection(top, NothingOpen)
    case _ => false
  }

  /** Why the loop ends, and with which plan, when `top` is the plan at its last top. */
  ghost predicate LoopEnds(top: Plan, exec: string -> StepEnd, end: RunEnd, executed: seq<string>,
                           attempted: seq<string>, plan: Plan, halted: bool) {
    if attempted == executed then
      plan == top && EndsAtTop(top, end, halted)
    else
      exists i: nat :: IsSelection(top, Selected(i)) && attempted == executed + [top[i].id]
        && match exec(top[i].id)
           case OutcomeUnknown => end == UnknownOutcome(top[i].id) && plan == SyncCurrent(top, top[i].id)
           case Halted => end == Controlled && plan == SyncCurrent(top, top[i].id)
           case Thrown => end == StepFailed(top[i].id) && plan == Settle(top, i, Failed)
           case FailedStep =>
             end == (if halted then Controlled else StepFailed(top[i].id)) && plan == Settle(top, i, Failed)
           case other => end == MissingMetadata && LacksMetadata(Settle(top, i, DoneAs(other)))
                         && plan == SyncCurrent(top, top[i].id)
  }

  /** What one iteration means for the schedule. */
  lemma AfterStep(top: Plan, i: nat, exec: string -> StepEnd, after: Plan, executed: seq<string>, goOn: bool,
                  done: bool, end: RunEnd, halted: bool)
    requires DistinctIds(top) && IsSelection(top, Selected(i))
    requires StepEnds(top, i, exec(top[i].id), after, goOn, done, end, halted)
    ensures done ==> TakesFirst(top, exec, top[i].id, after) && DistinctIds(after) && OpenCount(after) < OpenCount(top)
    ensures !done ==> LoopEnds(top, exec, end, executed, executed + [top[i].id], after, halted)
    ensures done && !goOn ==>
      LoopEnds(after, exec, end, executed + [top[i].id], executed + [top[i].id], after, halted)
  {
    if done {
      SettleCounts(top, i, DoneAs(exec(top[i].id)));
      SettleDistinct(top, i, DoneAs(exec(top[i].id)));
    }
  }

  lemma ScheduleGrows(
      entry: Plan, exec: string -> StepEnd, executed: seq<string>, plans: seq<Plan>, id: string, after: Plan)
    requires Scheduled(entry, exec, executed, plans) && TakesFirst(plans[|executed|], exec, id, after)
    ensures Scheduled(entry, exec, executed + [id], plans + [after])
  {
    var more, longer := executed + [id], plans + [after];
    forall n | 0 <= n < |more|
      ensures TakesFirst(longer[n], exec, more[n], longer[n + 1])
    {
      if n < |executed| { assert TakesFirst(plans[n], exec, executed[n], plans[n + 1]); }
    }
  }

  /** Why a run may end before its loop, and the status it then leaves. */
  ghost predicate EndsEarly(plan: Plan, end: RunEnd, status: RunStatus, halted: bool, refused: bool) {
    match end
    case CannotStart => refused
    case Controlled => halted
    case MissingMetadata => LacksMetadata(plan)
    case AllCompleted => IsSelection(plan, NothingOpen) && FirstFailure(plan, -1) && status.RunCompleted?
    case StepFailed(id) => IsSelection(plan, NothingOpen) && status.RunFailed?
                           && exists i: nat :: i < |plan| && plan[i].id == id && FirstFailure(plan, i)
    case _ => false
  }

  /** Step i is the first failed one; -1 when none has failed. */
  ghost predicate FirstFailure(plan: Plan, i: int) {
    && -1 <= i < |plan| && (i >= 0 ==> plan[i].status.Failed?)
    && forall k :: 0 <= k < (if i < 0 then |plan| else i) ==> !plan[k].status.Failed?
  }

  // ---------------------------------------------------------------- the status a run leaves

  /** Nobody else writes the status while the run goes on; sentinel files may still appear. */
  ghost predicate Alone(signals: nat -> Signal) { forall k :: signals(k).external.None? }

  ghost predicate Reported(signals: nat -> Signal, status: RunStatus) {
    exists k :: signals(k).external.Some? && signals(k).external.value.0 == status
  }

  /** What the status says at a loop top; `ran` tells whether a step has been executed. */
  ghost predicate LoopStatus(signals: nat -> Signal, status: RunStatus, pending: bool, plan: Plan, ran: bool) {
    && (status.RunCompleted? ==> NoneOpen(plan) || Reported(signals, RunCompleted))
    && (status.RunFailed? ==> Reported(signals, RunFailed))
    && (Alone(signals) ==> !status.NeedsRecovery? && !status.Idle? && !status.Rejected?
                           && (ran ==> !pending) && (ran && NoneOpen(plan) ==> status.RunCompleted?))
  }

  /** What the status says when the loop returns.  Unless somebody else wrote it, it is completed only
      with nothing left open, and failed only for a failed step or a blocked plan. */
  ghost predicate StatusTells(signals: nat -> Signal, end: RunEnd, status: RunStatus, plan: Plan, halted: bool) {
    && (status.RunCompleted? ==> NoneOpen(plan) || Reported(signals, RunCompleted))
    && (status.RunFailed? ==> end.StepFailed? || end.BlockedOn? || Reported(signals, RunFailed))
    && (end.BlockedOn? ==> status.RunFailed?)
    && (end.StepFailed? ==> status.RunFailed? || halted)
    && (end.UnknownOutcome? ==> !status.Running?)
    && (Alone(signals) ==>
          (end == AllCompleted <==> status.RunCompleted?) && (end.UnknownOutcome? <==> status.NeedsRecovery?))
  }

  /** The status left by the iteration that executes step i. */
  ghost function StatusLeft(
      before: Plan, i: nat, outcome: StepEnd, s: Signal, status: RunStatus, pending: bool): RunStatus
    requires i < |before|
  {
    var checked, next := StatusChecked(s, status), Settle(before, i, DoneAs(outcome));
    var halted := ControlStops(checked, Approval(s, pending));
    match outcome
    case OutcomeUnknown => if Seen(s, status).Running? then NeedsRecovery else Seen(s, status)
    case Halted => checked
    case Finished(_) => if halted then checked else StatusAfterDone(next, checked)
    case SkippedStep => if halted then checked else StatusAfterDone(next, checked)
    case _ => if halted then checked else RunFailed
  }

  ghost function StatusAfterDone(next: Plan, checked: RunStatus): RunStatus {
    if LacksMetadata(next) then checked
    else if IsBlocked(next) then RunFailed
    else if NoneOpen(next) then RunCompleted
    else checked
  }

  lemma StillOpen(plan: Plan, s: Selection)
    requires IsSelection(plan, s) && !s.NothingOpen?
    ensures !NoneOpen(plan)
  {
    var i := if s.Selected? then s.index else if s.Blocked? then s.first else s.at;
    assert OpenStatus(plan[i].status);
  }

  lemma CheckKeepsStatus(signals: nat -> Signal, k: nat, status: RunStatus, pending: bool, plan: Plan, ran: bool)
    requires LoopStatus(signals, status, pending, plan, ran)
    ensures var checked, waits := StatusChecked(signals(k), status), Approval(signals(k), pending);
            if ControlStops(checked, waits) then
              !NoneOpen(plan) || ran ==> StatusTells(signals, Controlled, checked, plan, true)
            else LoopStatus(signals, checked, waits, plan, ran) && (Alone(signals) ==> !waits)
  {
  }

  /** One iteration, from a status that lets it start: the loop goes on with a status that fits, or
      returns with one that tells why. */
  lemma StepLeavesStatus(signals: nat -> Signal, k: nat, status: RunStatus, pending: bool, top: Plan, i: nat,
                         outcome: StepEnd, after: Plan, goOn: bool, done: bool, end: RunEnd, ran: bool)
    requires LoopStatus(signals, status, pending, top, ran) && !ControlStops(status, pending)
    requires IsSelection(top, Selected(i))
    requires StepEnds(top, i, outcome, after, goOn, done, end,
                      ControlStops(StatusLeft(top, i, outcome, signals(k), status, pending),
                                   Approval(signals(k), pending)))
    ensures var left, waits := StatusLeft(top, i, outcome, signals(k), status, pending), Approval(signals(k), pending);
            if goOn then LoopStatus(signals, left, waits, after, true)
            else StatusTells(signals, end, left, after, ControlStops(left, waits))
  {
  }

  ghost predicate NeverBlocks(entry: Plan) { OpenOrDone(entry) && exists rank :: Acyclic(entry, rank) }

  /** Every way a run ends, for the plan it found and the plan it leaves. */
  ghost predicate RunEnds(entry: Plan, exec: string -> StepEnd, end: RunEnd, executed: seq<string>,
                          attempted: seq<string>, plan: Plan) {
    && ExitOk(entry, executed, attempted, plan) && AllDoneBy(exec, executed)
    && (end == AllCompleted ==> NoneOpen(plan) && attempted == executed)
    && end != SelectionDrifted
    && (NeverBlocks(entry) ==> !end.BlockedOn?)
    && (OpenExecutable(entry) ==> end != MissingMetadata)
  }

  /** The status a step gets from how it ended, when it is done. */
  function DoneAs(outcome: StepEnd): StepStatus { if outcome.SkippedStep? then Skipped else Completed }

  /** The status a result is projected as, when it is projected at all. */
  function ProjectedAs(outcome: StepEnd): StepStatus {
    match outcome
    case Finished(_) => Completed
    case SkippedStep => Skipped
    case _ => Failed
  }

  /** One iteration after step i was selected in `before`: what it leaves, and whether and why the
      loop goes on.  `halted` says whether a control status holds at its end. */
  ghost predicate StepEnds(
      before: Plan, i: nat, outcome: StepEnd, after: Plan, goOn: bool, done: bool, end: RunEnd, halted: bool)
    requires i < |before|
  {
    var id := before[i].id;
    match outcome
    case OutcomeUnknown => !done && !goOn && end == UnknownOutcome(id) && after == SyncCurrent(before, id)
    case Halted => !done && !goOn && end == Controlled && after == SyncCurrent(before, id)
    case Thrown => !done && !goOn && end == StepFailed(id) && after == Settle(before, i, Failed)
    case FailedStep =>
      !done && !goOn && after == Settle(before, i, Failed) && end == if halted then Controlled else StepFailed(id)
    case _ =>
      if LacksMetadata(Settle(before, i, DoneAs(outcome))) then
        !done && !goOn && end == MissingMetadata && after == SyncCurrent(before, id)
      else
        && done && after == Settle(before, i, DoneAs(outcome))
        && (goOn <==> !halted && !IsBlocked(after))
        && end == if !halted && IsBlocked(after) then BlockedOn(id) else Controlled
  }

  /** After an iteration the step is still in_progress, or has the status its result is projected as:
      a finished step is completed, a skipped one skipped, and any other one failed. */
  lemma StepEndsStatus(before: Plan, i: nat, outcome: StepEnd, after: Plan, goOn: bool, done: bool, end: RunEnd,
                       halted: bool)
    requires DistinctIds(before) && i < |before| && StepEnds(before, i, outcome, after, goOn, done, end, halted)
    ensures |after| == |before| && after[i].id == before[i].id
    ensures after[i].status.InProgress? || after[i].status == ProjectedAs(outcome)
    ensures done ==> after[i].status == if outcome.SkippedStep? then Skipped else Completed
    ensures outcome.FailedStep? || outcome.Thrown? ==> after[i].status == Failed
  {
    if !outcome.OutcomeUnknown? && !outcome.Halted? {
      SettleAt(before, i, Failed, i);
      SettleAt(before, i, DoneAs(outcome), i);
    }
  }

  // ---------------------------------------------------------------- the command

  class WorkflowRunner {
    var plan: Plan
    var status: RunStatus
    var pendingApproval: bool
    var runId: string
    var workflowId: string

    /** workflowControlStatus, after the surroundings have had their turn. */
    method ControlStatus(s: Signal) returns (stops: bool)
      modifies this`status, this`pendingApproval
      ensures stops <==> ControlStops(status, pendingApproval)
      ensures pendingApproval == Approval(s, old(pendingApproval)) && status == StatusChecked(s, old(status))
      ensures stops <==> pendingApproval || status == AwaitingApproval || status == Paused || status == Stopped
                         || status == NeedsRecovery
      ensures s.sentinel.PauseFile? ==> stops && status.Paused?
      ensures s == Signal(None, StopFile) && old(status).Running? ==> stops && status.Stopped?
      ensures s == Signal(None, NoSentinel) || (s == Signal(None, StopFile) && !old(status).Running?) ==>
                status == old(status) && pendingApproval == old(pendingApproval)
    {
      Observe(s);
      if s.sentinel.PauseFile? && !status.Paused? {
        status := Paused;
      } else if s.sentinel.StopFile? && status.Running? {
        status := Stopped;
      }
      stops := ControlStops(status, pendingApproval);
    }

    /** What the surroundings wrote is read back from the state file. */
    method Observe(s: Signal)
      modifies this`status, this`pendingApproval
      ensures status == Seen(s, old(status)) && pendingApproval == Approval(s, old(pendingApproval))
    {
      if s.external.Some? { status, pendingApproval := s.external.value.0, s.external.value.1; }
    }

    /** ensureWorkflowRunStarted. */
    method EnsureStarted(run: string, workflow: string) returns (ok: bool)
      modifies this`status, this`runId, this`workflowId
      ensures ok <==> if old(status).Running? || old(status).AwaitingApproval?
                      then old(runId) == run && old(workflowId) == workflow
                      else !old(status).Paused? && !old(status).Stopped? && !old(status).NeedsRecovery?
      ensures ok ==> runId == run && workflowId == workflow
                     && status == if old(status).AwaitingApproval? then AwaitingApproval else Running
      ensures !ok ==> status == old(status) && runId == old(runId) && workflowId == old(workflowId)
    {
      var same := runId == run && workflowId == workflow;
      if status.Running? || status.AwaitingApproval? { return same; }
      if status.Paused? || status.Stopped? || status.NeedsRecovery? { return false; }
      runId, workflowId, status := run, workflow, Running;
      ok := true;
    }

    /** One iteration from the moment step i is current to the next selection. */
    method ExecuteStep(i: nat, outcome: StepEnd, after: Signal) returns (goOn: bool, done: bool, end: RunEnd)
      requires DistinctIds(plan) && i < |plan| && OpenStatus(plan[i].status)
      modifies this`plan, this`status, this`pendingApproval
      ensures StepEnds(old(plan), i, outcome, plan, goOn, done, end, ControlStops(status, pendingApproval))
      ensures pendingApproval == Approval(after, old(pendingApproval))
      ensures status == StatusLeft(old(plan), i, outcome, after, old(status), old(pendingApproval))
    {
      var id := plan[i].id;
      plan := SyncCurrent(plan, id);
      match outcome {
        case OutcomeUnknown =>
          Observe(after);
          if status.Running? { status := NeedsRecovery; }
          return false, false, UnknownOutcome(id);
        case Halted =>
          var stops := ControlStatus(after);
          return false, false, Controlled;
        case Thrown =>
          var stops := ControlStatus(after);
          plan := SyncTerminal(plan, id, Failed);
          if !stops { status := RunFailed; }
          return false, false, StepFailed(id);
        case FailedStep =>
          var stops := ControlStatus(after);
          plan := SyncTerminal(plan, id, Failed);
          if !stops { status := RunFailed; }
          return false, false, if stops then Controlled else StepFailed(id);
        case _ =>
          var stops := ControlStatus(after);
          var settled := SyncTerminal(plan, id, DoneAs(outcome));
          var next := SelectNextWorkflowStep(settled);
          SelectionReports(settled, next);
          if next.NoMetadata? { return false, false, MissingMetadata; }
          if !stops && next.NothingOpen? { status := RunCompleted; }
          plan := settled;
          if stops { return false, true, Controlled; }
          if next.Blocked? {
            status := RunFailed;
            return false, true, BlockedOn(id);
          }
          return true, true, Controlled;
      }
    }

    /** runWorkflowCommand without the dry-run report.  `exec` tells how each step ends and
        `signals` what happens around the successive control checks.  `plans` is empty when the run
        returns before the loop. */
    method Run(run: string, workflow: string, exec: string -> StepEnd, signals: nat -> Signal)
      returns (end: RunEnd, executed: seq<string>, attempted: seq<string>, ghost plans: seq<Plan>)
      requires DistinctIds(plan)
      modifies this
      ensures if plans == [] then executed == attempted == [] && plan == old(plan)
                                  && EndsEarly(plan, end, status, ControlStops(status, pendingApproval),
                                       HeldByAnother(old(runId), run, old(status)) || plan == []
                                       || (status.Running? && (runId != run || workflowId != workflow)))
              else Scheduled(old(plan), exec, executed, plans)
                   && LoopEnds(plans[|executed|], exec, end, executed, attempted, plan,
                               ControlStops(status, pendingApproval))
                   && StatusTells(signals, end, status, plan, ControlStops(status, pendingApproval))
      ensures RunEnds(old(plan), exec, end, executed, attempted, plan)
      ensures HeldByAnother(old(runId), run, old(status)) ==>
                end == CannotStart && status == old(status) && runId == old(runId) && workflowId == old(workflowId)
    {
      executed, attempted, plans := [], [], [];
      EarlyIsFine(plan, exec);
      if runId != run && (status.Running? || ControlStops(status, false)) { return CannotStart, [], [], []; }
      var stops := ControlStatus(signals(0));
      if stops { return Controlled, [], [], []; }
      if plan == [] { return CannotStart, [], [], []; }
      var first := SelectNextWorkflowStep(plan);
      SelectionReports(plan, first);
      EarlySelection(plan, first);
      if first.NoMetadata? { return MissingMetadata, [], [], []; }
      if first.NothingOpen? {
        var failed := FirstFailed(plan);
        if failed >= 0 {
          status := RunFailed;
          return StepFailed(plan[failed].id), [], [], [];
        }
        status := RunCompleted;
        return AllCompleted, [], [], [];
      }
      var started := EnsureStarted(run, workflow);
      if !started { return CannotStart, [], [], []; }
      ghost var entry := plan;
      StillOpen(plan, first);
      end, executed, attempted, plans := RunLoop(exec, signals);
      RunProperties(entry, exec, end, executed, attempted, plans, plan, ControlStops(status, pendingApproval));
    }

    /** The loop down to its selection: the next step, or the reason to return.  A plan that had an
        open step before the loop still has one when nothing was executed, so the check for a
        drifted selection never fires. */
    method SelectAtTop(signals: nat -> Signal, k: nat, ran: bool) returns (end: Option<RunEnd>, i: nat)
      requires LoopStatus(signals, status, pendingApproval, plan, ran) && (ran || !NoneOpen(plan))
      modifies this`status, this`pendingApproval
      ensures end.None? ==> IsSelection(plan, Selected(i)) && !ControlStops(status, pendingApproval)
                            && LoopStatus(signals, status, pendingApproval, plan, ran)
      ensures end.Some? ==> EndsAtTop(plan, end.value, ControlStops(status, pendingApproval))
                            && StatusTells(signals, end.value, status, plan, ControlStops(status, pendingApproval))
                            && (end.value == AllCompleted ==> ran)
      ensures signals(k).sentinel.PauseFile? ==> end == Some(Controlled) && status.Paused?
      ensures signals(k) == Signal(None, StopFile) && old(status).Running? ==>
                end == Some(Controlled) && status.Stopped?
    {
      CheckKeepsStatus(signals, k, status, pendingApproval, plan, ran);
      var stops := ControlStatus(signals(k));
      if stops { return Some(Controlled), 0; }
      var selection := SelectNextWorkflowStep(plan);
      SelectionReports(plan, selection);
      match selection {
        case NoMetadata(_) =>
          StillOpen(plan, selection);
          return Some(MissingMetadata), 0;
        case Blocked(first) =>
          StillOpen(plan, selection);
          status := RunFailed;
          return Some(BlockedOn(plan[first].id)), 0;
        case NothingOpen =>
          return Some(if ran then AllCompleted else SelectionDrifted), 0;
        case Selected(index) =>
          return None, index;
      }
    }

    /** An iteration from its selection on, for a loop that has executed `executed` so far. */
    method RunStep(exec: string -> StepEnd, signals: nat -> Signal, k: nat, i: nat,
                   ghost entry: Plan, ghost executed: seq<string>, ghost plans: seq<Plan>)
      returns (goOn: bool, done: bool, end: RunEnd)
      requires DistinctIds(plan) && IsSelection(plan, Selected(i)) && !ControlStops(status, pendingApproval)
      requires Scheduled(entry, exec, executed, plans) && plans[|executed|] == plan
      requires LoopStatus(signals, status, pendingApproval, plan, executed != [])
      modifies this`plan, this`status, this`pendingApproval
      ensures done ==> Scheduled(entry, exec, executed + [old(plan)[i].id], plans + [plan]) && DistinctIds(plan)
                       && OpenCount(plan) < OpenCount(old(plan))
      ensures goOn ==> done && LoopStatus(signals, status, pendingApproval, plan, true)
      ensures !goOn ==> StatusTells(signals, end, status, plan, ControlStops(status, pendingApproval))
      ensures var attempted := executed + [old(plan)[i].id];
        var halted := ControlStops(status, pendingApproval);
        && (!done ==> LoopEnds(old(plan), exec, end, executed, attempted, plan, halted))
        && (done && !goOn ==> LoopEnds(plan, exec, end, attempted, attempted, plan, halted))
      ensures !goOn ==> end != AllCompleted
    {
      var id := plan[i].id;
      ghost var top, was, pending := plan, status, pendingApproval;
      goOn, done, end := ExecuteStep(i, exec(id), signals(k));
      StepLeavesStatus(signals, k, was, pending, top, i, exec(id), plan, goOn, done, end, executed != []);
      AfterStep(top, i, exec, plan, executed, goOn, done, end, ControlStops(status, pendingApproval));
      if done { ScheduleGrows(entry, exec, executed, plans, id, plan); }
    }

    /** The while (true) loop, on a plan with an open step. */
    method RunLoop(exec: string -> StepEnd, signals: nat -> Signal)
      returns (end: RunEnd, executed: seq<string>, attempted: seq<string>, ghost plans: seq<Plan>)
      requires DistinctIds(plan) && !NoneOpen(plan) && (status.Running? || status.AwaitingApproval?)
      modifies this`plan, this`status, this`pendingApproval
      ensures Scheduled(old(plan), exec, executed, plans)
      ensures LoopEnds(plans[|executed|], exec, end, executed, attempted, plan, ControlStops(status, pendingApproval))
      ensures StatusTells(signals, end, status, plan, ControlStops(status, pendingApproval))
      ensures end == AllCompleted ==> executed != []
      ensures signals(1).sentinel.PauseFile? ==> end == Controlled && attempted == [] && status.Paused?
      ensures signals(1) == Signal(None, StopFile) && old(status).Running? ==>
                end == Controlled && attempted == [] && status.Stopped?
    {
      ghost var entry := plan;
      executed, plans := [], [plan];
      var check := 1;
      while true
        invariant Scheduled(entry, exec, executed, plans) && plans[|executed|] == plan && DistinctIds(plan)
        invariant LoopStatus(signals, status, pendingApproval, plan, executed != [])
        invariant executed != [] || !NoneOpen(plan)
        invariant check == 1 ==> executed == [] && status == old(status)
        invariant check > 1 ==> !signals(1).sentinel.PauseFile?
        invariant check > 1 ==> !(signals(1) == Signal(None, StopFile) && old(status).Running?)
        decreases OpenCount(plan)
      {
        var stop, i := SelectAtTop(signals, check, executed != []);
        if stop.Some? { return stop.value, executed, executed, plans; }
        attempted := executed + [plan[i].id];
        var goOn, done, last := RunStep(exec, signals, check + 1, i, entry, executed, plans);
        if !done { return last, executed, attempted, plans; }
        executed, plans := attempted, plans + [plan];
        if !goOn { return last, executed, attempted, plans; }
        check := check + 2;
      }
    }

    method FirstFailed(p: Plan) returns (i: int)
      ensures FirstFailure(p, i)
    {
      for k := 0 to |p|
        invariant forall j :: 0 <= j < k ==> !p[j].status.Failed?
      {
        if p[k].status.Failed? { return k; }
      }
      return -1;
    }
  }

  // ---------------------------------------------------------------- what every schedule guarantees

  lemma ScheduleStep(entry: Plan, exec: string -> StepEnd, executed: seq<string>, before: Plan, id: string, after: Plan)
    requires LoopOk(entry, executed, before) && AllDoneBy(exec, executed) && TakesFirst(before, exec, id, after)
    ensures LoopOk(entry, executed + [id], after) && AllDoneBy(exec, executed + [id])
    ensures OpenCount(after) < OpenCount(before)
  {
    var i: nat :| IsSelection(before, Selected(i)) && before[i].id == id
                  && after == Settle(before, i, DoneAs(exec(id)));
    SettleKeepsLoop(entry, executed, before, i, DoneAs(exec(id)));
  }

  /** At every loop top the plan has evolved from the one found at entry, in dependency order, and
      every iteration that goes on lowers the number of open steps. */
  lemma {:induction false} ScheduleOk(
      entry: Plan, exec: string -> StepEnd, executed: seq<string>, plans: seq<Plan>, n: nat)
    requires DistinctIds(entry) && Scheduled(entry, exec, executed, plans) && n <= |executed|
    ensures LoopOk(entry, executed[..n], plans[n]) && AllDoneBy(exec, executed[..n])
    ensures n > 0 ==> OpenCount(plans[n]) < OpenCount(plans[n - 1])
  {
    if n == 0 {
      LoopStarts(entry, exec);
    } else {
      var k := n - 1;
      ScheduleOk(entry, exec, executed, plans, k);
      assert executed[..n] == executed[..k] + [executed[k]];
      ScheduleStep(entry, exec, executed[..k], plans[k], executed[k], plans[n]) by {
        assert TakesFirst(plans[k], exec, executed[k], plans[k + 1]);
      }
    }
  }

  lemma LoopStarts(entry: Plan, exec: string -> StepEnd)
    requires DistinctIds(entry)
    ensures LoopOk(entry, [], entry) && AllDoneBy(exec, [])
  {
  }

  /** Every executed step keeps the status its own execution ended with. */
  lemma {:induction false} ExecutedStatus(
      entry: Plan, exec: string -> StepEnd, executed: seq<string>, plans: seq<Plan>, n: nat, i: nat)
    requires DistinctIds(entry) && Scheduled(entry, exec, executed, plans) && n <= |executed| && i < |entry|
    requires entry[i].id in executed[..n]
    ensures i < |plans[n]| && plans[n][i].id == entry[i].id
    ensures plans[n][i].status == if exec(entry[i].id).SkippedStep? then Skipped else Completed
  {
    var k := n - 1;
    ScheduleOk(entry, exec, executed, plans, k);
    assert executed[..n] == executed[..k] + [executed[k]] && TakesFirst(plans[k], exec, executed[k], plans[k + 1]);
    var m: nat :| IsSelection(plans[k], Selected(m)) && plans[k][m].id == executed[k]
                  && plans[n] == Settle(plans[k], m, DoneAs(exec(executed[k])));
    SameIds(entry, plans[k]);
    SettleAt(plans[k], m, DoneAs(exec(executed[k])), i);
    if entry[i].id in executed[..k] { ExecutedStatus(entry, exec, executed, plans, k, i); }
  }

  lemma LoopExits(entry: Plan, exec: string -> StepEnd, end: RunEnd, executed: seq<string>, attempted: seq<string>,
                  top: Plan, plan: Plan, halted: bool)
    requires LoopOk(entry, executed, top) && LoopEnds(top, exec, end, executed, attempted, plan, halted)
    ensures ExitOk(entry, executed, attempted, plan)
  {
    if attempted == executed {
      LoopExit(entry, executed, top);
    } else {
      var i: nat :| IsSelection(top, Selected(i)) && attempted == executed + [top[i].id]
               && (plan == SyncCurrent(top, top[i].id) || plan == Settle(top, i, Failed));
      AttemptExits(entry, executed, top, i);
    }
  }

  lemma LoopProgresses(entry: Plan, exec: string -> StepEnd, end: RunEnd, executed: seq<string>,
                       attempted: seq<string>, top: Plan, plan: Plan, halted: bool)
    requires LoopOk(entry, executed, top) && LoopEnds(top, exec, end, executed, attempted, plan, halted)
    ensures NeverBlocks(entry) ==> !end.BlockedOn?
    ensures OpenExecutable(entry) ==> end != MissingMetadata
  {
    if attempted == executed {
      StillProgresses(entry, executed, top);
    } else {
      var i: nat :| IsSelection(top, Selected(i)) && attempted == executed + [top[i].id] && !end.BlockedOn?
                    && (end == MissingMetadata ==> LacksMetadata(Settle(top, i, DoneAs(exec(top[i].id)))));
      SettleKeepsLoop(entry, executed, top, i, DoneAs(exec(top[i].id)));
      StillProgresses(entry, executed + [top[i].id], Settle(top, i, DoneAs(exec(top[i].id))));
    }
  }

  /** Whatever the run does: dependency order, no step twice, no drifted selection, on an acyclic plan
      without failed steps no blocked end, and none for missing metadata where every open step has it. */
  lemma RunProperties(entry: Plan, exec: string -> StepEnd, end: RunEnd, executed: seq<string>, attempted: seq<string>,
                      plans: seq<Plan>, plan: Plan, halted: bool)
    requires DistinctIds(entry) && Scheduled(entry, exec, executed, plans)
    requires LoopEnds(plans[|executed|], exec, end, executed, attempted, plan, halted)
    ensures RunEnds(entry, exec, end, executed, attempted, plan)
  {
    ScheduleOk(entry, exec, executed, plans, |executed|);
    assert executed[..|executed|] == executed;
    var top := plans[|executed|];
    LoopExits(entry, exec, end, executed, attempted, top, plan, halted);
    LoopProgresses(entry, exec, end, executed, attempted, top, plan, halted);
  }

  lemma EarlyIsFine(entry: Plan, exec: string -> StepEnd)
    requires DistinctIds(entry)
    ensures ExitOk(entry, [], [], entry) && AllDoneBy(exec, [])
  {
  }

  lemma EarlySelection(entry: Plan, first: Selection)
    requires DistinctIds(entry) && IsSelection(entry, first)
    ensures NeverBlocks(entry) ==> !first.Blocked?
    ensures OpenExecutable(entry) ==> !first.NoMetadata?
  {
    if NeverBlocks(entry) {
      var rank :| Acyclic(entry, rank);
      NeverBlocked(entry, rank, first);
    }
  }

  /** What lets a plan progress stays true at every loop top. */
  lemma StillProgresses(entry: Plan, executed: seq<string>, plan: Plan)
    requires DistinctIds(entry) && Evolved(entry, executed, plan)
    ensures DistinctIds(plan)
    ensures NeverBlocks(entry) ==> !IsBlocked(plan)
    ensures OpenExecutable(entry) ==> !LacksMetadata(plan)
  {
    SameIds(entry, plan);
    if NeverBlocks(entry) {
      var rank :| Acyclic(entry, rank);
      SameShapeAcyclic(entry, plan, rank);
      forall k: nat | IsSelection(plan, Blocked(k))
        ensures false
      {
        NeverBlocked(plan, rank, Blocked(k));
      }
    }
  }

  lemma SameShapeAcyclic(entry: Plan, plan: Plan, rank: map<string, nat>)
    requires SameShape(entry, plan) && Acyclic(entry, rank)
    ensures Acyclic(plan, rank)
  {
    forall i, d | 0 <= i < |plan| && d in plan[i].dependsOn
      ensures plan[i].id in rank && d in rank && rank[d] < rank[plan[i].id]
              && exists k :: 0 <= k < |plan| && plan[k].id == d
    {
      assert d in entry[i].dependsOn;
      var k :| 0 <= k < |entry| && entry[k].id == d;
      assert plan[k].id == d;
    }
  }
}
