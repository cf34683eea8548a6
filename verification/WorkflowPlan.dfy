/** The persisted workflow plan: step selection and the two status edits. */
module WorkflowPlan {
  import opened Common

  datatype StepStatus = Pending | InProgress | Completed | Skipped | Failed | Other(text: string)

  datatype PlanStep = PlanStep(id: string, dependsOn: seq<string>, executable: bool, status: StepStatus)

  type Plan = seq<PlanStep>

  predicate OpenStatus(s: StepStatus) { s.Pending? || s.InProgress? }

  predicate DoneStatus(s: StepStatus) { s.Completed? || s.Skipped? }

  predicate DistinctIds(plan: Plan) {
    forall i, k :: 0 <= i < k < |plan| ==> plan[i].id != plan[k].id
  }

  /** The id map: a later step with the same id would win. */
  function StatusOf(plan: Plan, id: string): Option<StepStatus> {
    if plan == [] then None
    else if plan[|plan| - 1].id == id then Some(plan[|plan| - 1].status)
    else StatusOf(plan[..|plan| - 1], id)
  }

  predicate IsDone(plan: Plan, id: string) {
    var s := StatusOf(plan, id); s.Some? && DoneStatus(s.value)
  }

  predicate DependenciesSatisfied(plan: Plan, step: PlanStep) {
    forall d :: d in step.dependsOn ==> IsDone(plan, d)
  }

  lemma {:induction false} StatusAt(plan: Plan, i: nat)
    requires DistinctIds(plan) && i < |plan|
    ensures StatusOf(plan, plan[i].id) == Some(plan[i].status)
  {
    var n := |plan| - 1;
    if i < n {
      assert plan[i].id != plan[n].id;
      assert plan[..n][i] == plan[i];
      StatusAt(plan[..n], i);
    }
  }

  lemma {:induction false} StatusIndex(plan: Plan, id: string) returns (i: nat)
    requires StatusOf(plan, id).Some?
    ensures i < |plan| && plan[i].id == id && plan[i].status == StatusOf(plan, id).value
  {
    var n := |plan| - 1;
    if plan[n].id == id {
      i := n;
    } else {
      i := StatusIndex(plan[..n], id);
    }
  }

  // ---------------------------------------------------------------- selection

  datatype Selection = Selected(index: nat) | Blocked(first: nat) | NothingOpen | NoMetadata(at: nat)

  predicate Waiting(plan: Plan, i: nat)
    requires i < |plan|
  {
    OpenStatus(plan[i].status) ==> plan[i].executable && !DependenciesSatisfied(plan, plan[i])
  }

  /** What selectNextWorkflowStep reports; the four cases exclude each other. */
  ghost predicate IsSelection(plan: Plan, s: Selection) {
    match s
    case Selected(i) =>
      i < |plan| && OpenStatus(plan[i].status) && plan[i].executable && DependenciesSatisfied(plan, plan[i])
      && forall k :: 0 <= k < i ==> Waiting(plan, k)
    case NoMetadata(i) =>
      i < |plan| && OpenStatus(plan[i].status) && !plan[i].executable && forall k :: 0 <= k < i ==> Waiting(plan, k)
    case Blocked(i) =>
      i < |plan| && OpenStatus(plan[i].status) && (forall k :: 0 <= k < i ==> !OpenStatus(plan[k].status))
      && forall k :: 0 <= k < |plan| ==> Waiting(plan, k)
    case NothingOpen => forall k :: 0 <= k < |plan| ==> !OpenStatus(plan[k].status)
  }

  lemma SelectionUnique(plan: Plan, s: Selection, r: Selection)
    requires IsSelection(plan, s) && IsSelection(plan, r)
    ensures s == r
  {
    var i := if s.Selected? then s.index else if s.NoMetadata? then s.at else if s.Blocked? then s.first else 0;
    var k := if r.Selected? then r.index else if r.NoMetadata? then r.at else if r.Blocked? then r.first else 0;
    if !s.NothingOpen? && !r.NothingOpen? {
      assert i < k || r.Blocked? ==> Waiting(plan, i);
      assert k < i || s.Blocked? ==> Waiting(plan, k);
    }
  }

  ghost predicate LacksMetadata(plan: Plan) { exists k :: IsSelection(plan, NoMetadata(k)) }

  ghost predicate IsBlocked(plan: Plan) { exists k :: IsSelection(plan, Blocked(k)) }

  /** A plan reports one thing only. */
  lemma SelectionReports(plan: Plan, s: Selection)
    requires IsSelection(plan, s)
    ensures LacksMetadata(plan) <==> s.NoMetadata?
    ensures IsBlocked(plan) <==> s.Blocked?
  {
    if k :| IsSelection(plan, NoMetadata(k)) { SelectionUnique(plan, s, NoMetadata(k)); }
    if k :| IsSelection(plan, Blocked(k)) { SelectionUnique(plan, s, Blocked(k)); }
    if s.NoMetadata? { assert IsSelection(plan, NoMetadata(s.at)); }
    if s.Blocked? { assert IsSelection(plan, Blocked(s.first)); }
  }

  method SelectNextWorkflowStep(plan: Plan) returns (s: Selection)
    ensures IsSelection(plan, s)
  {
    var firstOpen := -1;
    for i := 0 to |plan|
      invariant -1 <= firstOpen < i
      invariant forall k :: 0 <= k < i ==> Waiting(plan, k)
      invariant firstOpen < 0 ==> forall k :: 0 <= k < i ==> !OpenStatus(plan[k].status)
      invariant firstOpen >= 0 ==> OpenStatus(plan[firstOpen].status)
                                   && forall k :: 0 <= k < firstOpen ==> !OpenStatus(plan[k].status)
    {
      if OpenStatus(plan[i].status) {
        if !plan[i].executable { return NoMetadata(i); }
        if DependenciesSatisfied(plan, plan[i]) { return Selected(i); }
        if firstOpen < 0 { firstOpen := i; }
      }
    }
    return if firstOpen >= 0 then Blocked(firstOpen) else NothingOpen;
  }

  // ---------------------------------------------------------------- status edits

  /** syncPlanCurrentStep: the step becomes in_progress, and every other step that was
      in_progress becomes completed. */
  function SyncCurrent(plan: Plan, id: string): (r: Plan)
    ensures |r| == |plan|
  {
    seq(|plan|, i requires 0 <= i < |plan| =>
      if plan[i].id == id then plan[i].(status := InProgress)
      else if plan[i].status.InProgress? then plan[i].(status := Completed)
      else plan[i])
  }

  /** syncPlanTerminal: the step's status and nothing else. */
  function SyncTerminal(plan: Plan, id: string, status: StepStatus): (r: Plan)
    ensures |r| == |plan|
  {
    seq(|plan|, i requires 0 <= i < |plan| => if plan[i].id == id then plan[i].(status := status) else plan[i])
  }

  // ---------------------------------------------------------------- progress

  /** Every dependency names a plan step of lower rank: the dependency graph has no cycle. */
  ghost predicate Acyclic(plan: Plan, rank: map<string, nat>) {
    forall i, d :: 0 <= i < |plan| && d in plan[i].dependsOn ==>
      plan[i].id in rank && d in rank && rank[d] < rank[plan[i].id] && exists k :: 0 <= k < |plan| && plan[k].id == d
  }

  /** Every status is one the scheduler acts on, and no step has failed. */
  ghost predicate OpenOrDone(plan: Plan) {
    forall i :: 0 <= i < |plan| ==> OpenStatus(plan[i].status) || DoneStatus(plan[i].status)
  }

  ghost predicate OpenExecutable(plan: Plan) {
    forall i :: 0 <= i < |plan| && OpenStatus(plan[i].status) ==> plan[i].executable
  }

  function RankOf(rank: map<string, nat>, id: string): nat { if id in rank then rank[id] else 0 }

  lemma LeastOpen(plan: Plan, rank: map<string, nat>, i: nat) returns (m: nat)
    requires i < |plan| && OpenStatus(plan[i].status)
    ensures m < |plan| && OpenStatus(plan[m].status)
    ensures forall k :: 0 <= k < |plan| && OpenStatus(plan[k].status) ==>
              RankOf(rank, plan[m].id) <= RankOf(rank, plan[k].id)
    decreases RankOf(rank, plan[i].id)
  {
    if k :| 0 <= k < |plan| && OpenStatus(plan[k].status) && RankOf(rank, plan[k].id) < RankOf(rank, plan[i].id) {
      m := LeastOpen(plan, rank, k);
    } else {
      m := i;
    }
  }

  /** On an acyclic plan without failed steps, selection never reports that the plan is blocked. */
  lemma NeverBlocked(plan: Plan, rank: map<string, nat>, s: Selection)
    requires DistinctIds(plan) && Acyclic(plan, rank) && OpenOrDone(plan) && IsSelection(plan, s)
    ensures !s.Blocked?
  {
    if s.Blocked? {
      var m := LeastOpen(plan, rank, s.first);
      assert Waiting(plan, m);
      var d :| d in plan[m].dependsOn && !IsDone(plan, d);
      var k :| 0 <= k < |plan| && plan[k].id == d;
      StatusAt(plan, k);
    }
  }

  /** So a step is ready whenever one is open, if the open steps can be executed at all. */
  lemma SomeStepIsReady(plan: Plan, rank: map<string, nat>, s: Selection)
    requires DistinctIds(plan) && Acyclic(plan, rank) && OpenOrDone(plan) && IsSelection(plan, s)
    requires OpenExecutable(plan)
    ensures if exists i :: 0 <= i < |plan| && OpenStatus(plan[i].status) then s.Selected? else s.NothingOpen?
  {
    NeverBlocked(plan, rank, s);
  }
}
