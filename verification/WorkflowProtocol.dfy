/** Workflow runs as a step relation: one command at a time works on the persisted plan and
    journal, may crash anywhere, and is run again any number of times, while operators grant
    approvals and edit the satisfied gates at any moment. */
module WorkflowProtocol {
  import opened Common
  import opened Manifest
  import opened WorkflowPlan

  datatype Event =
    | Dispatched(step: string)
    | WasReset(step: string, boundary: Boundary)
    | Approved(gateId: string, approvalId: string)
    | Concluded(step: string, status: StepStatus)

  /** Where the running command is.  Idle: no command is running. */
  datatype Pc =
    | Idle
    | Top
    | Chosen(step: string, untried: bool)
    | Cleared(step: string)
    | Observed(step: string)
    | Marked(step: string)
    | Calling(step: string)
    | Concluding(step: string, status: StepStatus)

  datatype State = State(
    journal: Journal,
    plan: Plan,
    approved: set<(string, string)>,
    gates: map<string, string>,
    pc: Pc,
    trace: seq<Event>)

  /** Fail: anything thrown before the dispatch, such as a request that does not compile. */
  datatype Action =
    | Begin
    | Return
    | Choose(index: nat)
    | Inspect(replayAs: StepStatus)
    | Fail
    | Observe
    | SkipDispatch(status: StepStatus)
    | HaltAtBoundary
    | Mark(write: Write, status: StepStatus)
    | Dispatch
    | Receive(reply: Reply, canonical: bool, write: Write, retry: Write, status: StepStatus)
    | Conclude
    | Crash
    | Approve(gate: string, id: string)
    | EditGates(newGates: map<string, string>)

  predicate Terminal(s: StepStatus) { s.Completed? || s.Skipped? || s.Failed? }

  predicate Unknown(j: Journal, step: string) { step in j && j[step].Pending? && j[step].state == OutcomeUnknown }

  /** The boundary on record for the step, if any, is approved canonically. */
  predicate BoundaryGranted(s: State, step: string) {
    step in s.journal && s.journal[step].last.Some? ==>
      var b := s.journal[step].last.value;
      (b.gateId, b.approvalId) in s.approved && b.gateId in s.gates && s.gates[b.gateId] == b.approvalId
  }

  predicate Enabled(s: State, a: Action) {
    match a
    case Begin => s.pc.Idle?
    case Return => s.pc.Top?
    case Choose(i) => s.pc.Top? && i < |s.plan| && OpenStatus(s.plan[i].status) && s.plan[i].executable
                      && DependenciesSatisfied(s.plan, s.plan[i]) && forall k :: 0 <= k < i ==> Waiting(s.plan, k)
    case Inspect(status) => s.pc.Chosen? && Terminal(status)
    case Fail => s.pc.Chosen? || s.pc.Cleared? || s.pc.Observed?
    case Observe => s.pc.Cleared?
    case SkipDispatch(status) => s.pc.Observed? && Terminal(status)
    case HaltAtBoundary => s.pc.Observed?
    case Mark(_, status) => s.pc.Observed? && Terminal(status)
    case Dispatch => s.pc.Marked?
    case Receive(_, _, _, _, status) => s.pc.Calling? && Terminal(status)
    case Conclude => s.pc.Concluding?
    case Crash => true
    case Approve(_, _) => true
    case EditGates(_) => true
  }

  /** After selection: stop on an unknown outcome, replay a committed one, or go on to dispatch. */
  function AfterInspect(request: string -> Identity, s: State, replayAs: StepStatus): Pc
    requires s.pc.Chosen?
  {
    var step := s.pc.step;
    if !Matches(s.journal, request(step)) then Concluding(step, Failed)
    else if Unknown(s.journal, step) || (step !in s.journal && !s.pc.untried) then Idle
    else if step in s.journal && s.journal[step].Committed? then
      Concluding(step, if s.journal[step].result.envelope.Ordinary? then replayAs else Failed)
    else if !BoundaryGranted(s, step) then Concluding(step, Failed)
    else Cleared(step)
  }

  function MarkStep(request: string -> Identity, s: State, write: Write, status: StepStatus): State
    requires s.pc.Observed?
  {
    var step := s.pc.step;
    if !CanMarkOne(s.journal, request(step)) then
      s.(pc := if Unknown(s.journal, step) then Idle else Concluding(step, status))
    else
      var marked := s.journal[step := s.journal[request(step).stepId].(state := OutcomeUnknown)];
      if write == LostWrite then s.(pc := Concluding(step, status))
      else if write == LateError then s.(journal := marked, pc := Idle)
      else s.(journal := marked, pc := Marked(step))
  }

  /** Committing the reply; a failed commit leaves the attempt unknown. */
  function CommitReply(j: Journal, a: Identity, r: ToolResult, write: Write): Journal {
    if !CanSettle(j, a) || write == LostWrite then j else CommitOne(j, a, r)
  }

  /** The reset accepts the attempt and the boundary. */
  predicate Resettable(j: Journal, a: Identity, r: ToolResult) {
    r.envelope.Approval? && CanSettle(j, a) && ValidBoundary(r.envelope.boundary)
  }

  function ReceiveStep(request: string -> Identity, s: State, reply: Reply, canonical: bool,
                       write: Write, retry: Write, status: StepStatus): State
    requires s.pc.Calling?
  {
    var step := s.pc.step;
    var a := request(step);
    if reply.TransportError? then s.(pc := Idle)
    else if reply.result.envelope.Ordinary? then
      var j := CommitReply(s.journal, a, reply.result, write);
      s.(journal := j, pc := if Unknown(j, step) then Idle else Concluding(step, status))
    else if Resettable(s.journal, a, reply.result) && canonical && write != LostWrite then
      var b := reply.result.envelope.boundary;
      var t := s.(journal := ResetOne(s.journal, a, b), trace := s.trace + [WasReset(step, b)]);
      t.(pc := if write == Clean then Idle else Concluding(step, Failed))
    else
      // A rejected envelope is kept as committed evidence and the step fails.
      s.(journal := CommitReply(s.journal, a, reply.result, retry), pc := Concluding(step, Failed))
  }

  function Apply(request: string -> Identity, s: State, a: Action): State
    requires Enabled(s, a)
  {
    match a
    case Begin => s.(pc := Top)
    case Return => s.(pc := Idle)
    case Choose(i) => s.(plan := SyncCurrent(s.plan, s.plan[i].id),
                         pc := Chosen(s.plan[i].id, s.plan[i].status.Pending?))
    case Inspect(status) => s.(pc := AfterInspect(request, s, status))
    case Fail => s.(pc := Concluding(s.pc.step, Failed))
    case Observe =>
      if Matches(s.journal, request(s.pc.step))
      then s.(journal := ObserveOne(s.journal, request(s.pc.step)), pc := Observed(s.pc.step))
      else s.(pc := Concluding(s.pc.step, Failed))
    case SkipDispatch(status) => s.(pc := Concluding(s.pc.step, status))
    case HaltAtBoundary => s.(pc := Idle)
    case Mark(write, status) => MarkStep(request, s, write, status)
    case Dispatch => s.(pc := Calling(s.pc.step), trace := s.trace + [Dispatched(s.pc.step)])
    case Receive(reply, canonical, write, retry, status) =>
      ReceiveStep(request, s, reply, canonical, write, retry, status)
    case Conclude => s.(plan := SyncTerminal(s.plan, s.pc.step, s.pc.status),
                        pc := if s.pc.status.Failed? then Idle else Top,
                        trace := s.trace + [Concluded(s.pc.step, s.pc.status)])
    case Crash => s.(pc := Idle)
    case Approve(gate, id) => s.(approved := s.approved + {(gate, id)}, gates := s.gates[gate := id],
                                 trace := s.trace + [Approved(gate, id)])
    case EditGates(m) => s.(gates := m)
  }

  function Run(request: string -> Identity, s: State, actions: seq<Action>): Option<State>
    decreases |actions|
  {
    if actions == [] then Some(s)
    else if !Enabled(s, actions[0]) then None
    else Run(request, Apply(request, s, actions[0]), actions[1..])
  }

  /** The compiled request of a step carries the step's own id. */
  ghost predicate NamesSteps(request: string -> Identity) { forall x :: request(x).stepId == x }

  /** A plan nobody has started, with nothing in the journal yet. */
  ghost predicate Initial(s: State) {
    && DistinctIds(s.plan) && (forall i :: 0 <= i < |s.plan| ==> !s.plan[i].status.InProgress?)
    && s.journal == map[] && s.approved == {} && s.pc.Idle? && s.trace == []
  }

  // ---------------------------------------------------------------- reading the trace

  function Dispatches(trace: seq<Event>, step: string): nat {
    if trace == [] then 0
    else Dispatches(trace[..|trace| - 1], step) + if trace[|trace| - 1] == Dispatched(step) then 1 else 0
  }

  function Resets(trace: seq<Event>, step: string): nat {
    if trace == [] then 0
    else Resets(trace[..|trace| - 1], step)
         + if trace[|trace| - 1].WasReset? && trace[|trace| - 1].step == step then 1 else 0
  }

  /** The boundary of the step's latest reset. */
  function LastReset(trace: seq<Event>, step: string): Option<Boundary> {
    if trace == [] then None
    else if trace[|trace| - 1].WasReset? && trace[|trace| - 1].step == step then Some(trace[|trace| - 1].boundary)
    else LastReset(trace[..|trace| - 1], step)
  }

  /** A dispatch that follows a reset follows the approval of that reset's boundary too. */
  ghost predicate DispatchesGranted(trace: seq<Event>) {
    forall k :: 0 <= k < |trace| && trace[k].Dispatched? ==> Granted(trace[..k], trace[k].step)
  }

  predicate Granted(before: seq<Event>, step: string) {
    var b := LastReset(before, step);
    b.Some? ==> Approved(b.value.gateId, b.value.approvalId) in before
  }

  lemma TraceSnoc(trace: seq<Event>, e: Event, step: string)
    ensures Dispatches(trace + [e], step) == Dispatches(trace, step) + if e == Dispatched(step) then 1 else 0
    ensures Resets(trace + [e], step) == Resets(trace, step) + if e.WasReset? && e.step == step then 1 else 0
    ensures LastReset(trace + [e], step) ==
            if e.WasReset? && e.step == step then Some(e.boundary) else LastReset(trace, step)
  {
    assert (trace + [e])[..|trace|] == trace;
  }

  lemma GrantedSnoc(trace: seq<Event>, e: Event)
    requires DispatchesGranted(trace)
    requires e.Dispatched? ==> Granted(trace, e.step)
    ensures DispatchesGranted(trace + [e])
  {
    var more := trace + [e];
    forall k | 0 <= k < |more| && more[k].Dispatched?
      ensures Granted(more[..k], more[k].step)
    {
      assert more[..k] == if k < |trace| then trace[..k] else trace;
    }
  }

  // ---------------------------------------------------------------- the invariant

  predicate HoldsStep(pc: Pc, step: string) { (pc.Marked? || pc.Calling?) && pc.step == step }

  function DispatchCredit(s: State, step: string): nat {
    Resets(s.trace, step) + if Manifest.Dispatched(s.journal, step) then 1 else 0
  }

  ghost predicate Counted(s: State, step: string) {
    && Resets(s.trace, step) == Boundaries(s.journal, step)
    && Dispatches(s.trace, step) + (if s.pc == Marked(step) then 1 else 0) <= DispatchCredit(s, step)
    && LastReset(s.trace, step) == (if step in s.journal then s.journal[step].last else None)
    && (step in s.journal ==> s.journal[step].id.stepId == step)
  }

  /** Past the approval check, the boundary on record stays approved. */
  ghost predicate Checked(s: State) {
    (s.pc.Cleared? || s.pc.Observed? || s.pc.Marked?) ==>
      s.pc.step in s.journal && s.journal[s.pc.step].last.Some? ==>
        var b := s.journal[s.pc.step].last.value; (b.gateId, b.approvalId) in s.approved
  }

  ghost predicate JournalInv(request: string -> Identity, s: State) {
    && (forall x :: Counted(s, x))
    && (s.pc.Marked? || s.pc.Calling? ==> CanSettle(s.journal, request(s.pc.step)))
    && Checked(s)
    && (forall g, i :: (g, i) in s.approved ==> Approved(g, i) in s.trace)
    && DispatchesGranted(s.trace)
  }

  lemma Snoc(request: string -> Identity, s: State, s': State, e: Event)
    requires JournalInv(request, s)
    requires s' == s.(trace := s.trace + [e], approved := s'.approved, gates := s'.gates, plan := s'.plan, pc := s'.pc)
    requires !e.WasReset? && !e.Dispatched?
    requires s.approved <= s'.approved
    requires forall g, i :: (g, i) in s'.approved ==> (g, i) in s.approved || e == Approved(g, i)
    requires s'.pc == s.pc || s'.pc.Idle? || s'.pc.Top?
    ensures JournalInv(request, s')
  {
    forall x
      ensures Counted(s', x)
    {
      assert Counted(s, x);
      TraceSnoc(s.trace, e, x);
    }
    GrantedSnoc(s.trace, e);
  }

  /** A journal write that leaves every other step alone, with at most one new trace event about
      the written step. */
  ghost predicate OnlyStep(j: Journal, j': Journal, step: string) {
    && (forall x :: x != step ==> (x in j <==> x in j') && (x in j ==> j'[x] == j[x]))
  }

  lemma OthersCounted(s: State, s': State, step: string, x: string)
    requires Counted(s, x) && x != step
    requires OnlyStep(s.journal, s'.journal, step)
    requires s'.trace == s.trace
             || exists e: Event :: s'.trace == s.trace + [e]
                                   && (e == Dispatched(step) || (e.WasReset? && e.step == step))
    requires s'.pc != Marked(x) || s.pc == Marked(x)
    ensures Counted(s', x)
  {
    if s'.trace != s.trace {
      var e: Event :| s'.trace == s.trace + [e] && (e == Dispatched(step) || (e.WasReset? && e.step == step));
      TraceSnoc(s.trace, e, x);
    }
  }

  lemma ObserveKeeps(request: string -> Identity, s: State)
    requires NamesSteps(request) && JournalInv(request, s) && s.pc.Cleared?
    ensures JournalInv(request, Apply(request, s, Observe))
  {
    var s' := Apply(request, s, Observe);
    forall x
      ensures Counted(s', x)
    {
      assert Counted(s, x);
      if x != s.pc.step { OthersCounted(s, s', s.pc.step, x); }
    }
  }

  lemma MarkKeeps(request: string -> Identity, s: State, write: Write, status: StepStatus)
    requires NamesSteps(request) && JournalInv(request, s) && Enabled(s, Mark(write, status))
    ensures JournalInv(request, Apply(request, s, Mark(write, status)))
  {
    var s' := Apply(request, s, Mark(write, status));
    assert Counted(s, s.pc.step);
    forall x
      ensures Counted(s', x)
    {
      assert Counted(s, x);
      if x != s.pc.step { OthersCounted(s, s', s.pc.step, x); }
    }
  }

  lemma DispatchKeeps(request: string -> Identity, s: State)
    requires NamesSteps(request) && JournalInv(request, s) && s.pc.Marked?
    ensures JournalInv(request, Apply(request, s, Action.Dispatch))
  {
    var step := s.pc.step;
    var s' := Apply(request, s, Action.Dispatch);
    assert Counted(s, step);
    forall x
      ensures Counted(s', x)
    {
      assert Counted(s, x);
      TraceSnoc(s.trace, Dispatched(step), x);
    }
    GrantedSnoc(s.trace, Dispatched(step));
  }

  /** The entry of the step is kept or becomes committed; its boundaries stay. */
  ghost predicate SettledAlike(j: Journal, j': Journal, step: string) {
    && OnlyStep(j, j', step) && step in j && step in j' && Manifest.Dispatched(j', step)
    && Boundaries(j', step) == Boundaries(j, step) && j'[step].last == j[step].last && j'[step].id == j[step].id
  }

  lemma CommitAlike(j: Journal, a: Identity, r: ToolResult, write: Write)
    requires CanSettle(j, a) && j[a.stepId].id == a
    ensures SettledAlike(j, CommitReply(j, a, r, write), a.stepId)
  {
  }

  lemma CountedAlike(s: State, s': State, step: string)
    requires Counted(s, step) && SettledAlike(s.journal, s'.journal, step)
    requires s'.trace == s.trace && s.pc != Marked(step)
    requires !s'.pc.Marked? && Manifest.Dispatched(s.journal, step)
    ensures Counted(s', step)
  {
  }

  /** A reset adds a boundary, and the step may be dispatched once more. */
  lemma CountedReset(s: State, s': State, a: Identity, b: Boundary)
    requires CanSettle(s.journal, a) && Counted(s, a.stepId) && s.pc != Marked(a.stepId) && !s'.pc.Marked?
    requires s'.journal == ResetOne(s.journal, a, b) && s'.trace == s.trace + [WasReset(a.stepId, b)]
    ensures Counted(s', a.stepId) && OnlyStep(s.journal, s'.journal, a.stepId)
  {
    TraceSnoc(s.trace, WasReset(a.stepId, b), a.stepId);
  }

  predicate Resetting(request: string -> Identity, s: State, a: Action)
    requires a.Receive? && Enabled(s, a)
  {
    && a.reply.Replied? && Resettable(s.journal, request(s.pc.step), a.reply.result)
    && a.canonical && a.write != LostWrite
  }

  /** What a reply leaves behind. */
  ghost predicate Received(s: State, s': State, event: seq<Event>) {
    && s.pc.Calling? && OnlyStep(s.journal, s'.journal, s.pc.step) && Counted(s', s.pc.step)
    && !s'.pc.Marked? && !s'.pc.Calling? && !s'.pc.Cleared? && !s'.pc.Observed?
    && s'.approved == s.approved && s'.trace == s.trace + event
  }

  lemma ReceiveResets(request: string -> Identity, s: State, a: Action)
    requires NamesSteps(request) && a.Receive? && Enabled(s, a) && Counted(s, s.pc.step) && Resetting(request, s, a)
    ensures Received(s, Apply(request, s, a), [WasReset(s.pc.step, a.reply.result.envelope.boundary)])
  {
    CountedReset(s, Apply(request, s, a), request(s.pc.step), a.reply.result.envelope.boundary);
  }

  lemma CommitReplyAlike(request: string -> Identity, s: State, a: Action)
    requires NamesSteps(request) && a.Receive? && Enabled(s, a) && !Resetting(request, s, a)
    requires CanSettle(s.journal, request(s.pc.step))
    ensures SettledAlike(s.journal, Apply(request, s, a).journal, s.pc.step)
  {
    var id := request(s.pc.step);
    if a.reply.Replied? {
      CommitAlike(s.journal, id, a.reply.result, a.write);
      CommitAlike(s.journal, id, a.reply.result, a.retry);
    }
  }

  lemma ReceiveCommits(request: string -> Identity, s: State, a: Action)
    requires NamesSteps(request) && a.Receive? && Enabled(s, a) && Counted(s, s.pc.step) && !Resetting(request, s, a)
    requires CanSettle(s.journal, request(s.pc.step))
    ensures Received(s, Apply(request, s, a), [])
  {
    var s' := Apply(request, s, a);
    CommitReplyAlike(request, s, a);
    assert s'.trace == s.trace == s.trace + [];
    CountedAlike(s, s', s.pc.step);
  }

  lemma ReceiveKeeps(request: string -> Identity, s: State, a: Action)
    requires NamesSteps(request) && JournalInv(request, s) && a.Receive? && Enabled(s, a)
    ensures JournalInv(request, Apply(request, s, a))
  {
    assert Counted(s, s.pc.step);
    if Resetting(request, s, a) {
      ReceiveResets(request, s, a);
      var e := WasReset(s.pc.step, a.reply.result.envelope.boundary);
      ReceivedKeeps(request, s, Apply(request, s, a), [e]);
    } else {
      ReceiveCommits(request, s, a);
      ReceivedKeeps(request, s, Apply(request, s, a), []);
    }
  }

  lemma ReceivedKeeps(request: string -> Identity, s: State, s': State, event: seq<Event>)
    requires JournalInv(request, s) && Received(s, s', event)
    requires event == [] || (|event| == 1 && event[0].WasReset? && event[0].step == s.pc.step)
    ensures JournalInv(request, s')
  {
    if event == [] {
      assert s'.trace == s.trace;
    } else {
      assert s'.trace == s.trace + [event[0]];
      GrantedSnoc(s.trace, event[0]);
    }
    forall x
      ensures Counted(s', x)
    {
      assert Counted(s, x);
      if x != s.pc.step { OthersCounted(s, s', s.pc.step, x); }
    }
  }

  lemma ConcludeKeeps(request: string -> Identity, s: State)
    requires JournalInv(request, s) && s.pc.Concluding?
    ensures JournalInv(request, Apply(request, s, Conclude))
  {
    Snoc(request, s, Apply(request, s, Conclude), Concluded(s.pc.step, s.pc.status));
  }

  lemma QuietKeeps(request: string -> Identity, s: State, s': State)
    requires JournalInv(request, s)
    requires s'.journal == s.journal && s'.approved == s.approved && s'.trace == s.trace
    requires s'.pc.Marked? || s'.pc.Calling? ==> s'.pc == s.pc
    requires s'.pc.Cleared? || s'.pc.Observed? ==> s'.pc == s.pc || BoundaryGranted(s, s'.pc.step)
    ensures JournalInv(request, s')
  {
    forall x
      ensures Counted(s', x)
    {
      assert Counted(s, x);
    }
  }

  lemma StepKeepsJournalInv(request: string -> Identity, s: State, a: Action)
    requires NamesSteps(request) && JournalInv(request, s) && Enabled(s, a)
    ensures JournalInv(request, Apply(request, s, a))
  {
    var s' := Apply(request, s, a);
    match a
    case Observe => ObserveKeeps(request, s);
    case Mark(write, status) => MarkKeeps(request, s, write, status);
    case Dispatch => DispatchKeeps(request, s);
    case Receive(_, _, _, _, _) => ReceiveKeeps(request, s, a);
    case Conclude => ConcludeKeeps(request, s);
    case Approve(gate, id) => Snoc(request, s, s', Approved(gate, id));
    case Begin => QuietKeeps(request, s, s');
    case Return => QuietKeeps(request, s, s');
    case Choose(_) => QuietKeeps(request, s, s');
    case Inspect(_) => QuietKeeps(request, s, s');
    case Fail => QuietKeeps(request, s, s');
    case SkipDispatch(_) => QuietKeeps(request, s, s');
    case HaltAtBoundary => QuietKeeps(request, s, s');
    case Crash => QuietKeeps(request, s, s');
    case EditGates(_) => QuietKeeps(request, s, s');
  }

  lemma {:induction false} RunKeepsJournalInv(request: string -> Identity, s: State, actions: seq<Action>)
    requires NamesSteps(request) && JournalInv(request, s) && Run(request, s, actions).Some?
    ensures JournalInv(request, Run(request, s, actions).value)
    decreases |actions|
  {
    if actions != [] {
      StepKeepsJournalInv(request, s, actions[0]);
      RunKeepsJournalInv(request, Apply(request, s, actions[0]), actions[1..]);
    }
  }

  // ---------------------------------------------------------------- main results: dispatch

  /** Over every sequence of runs and crashes: at most one dispatch, plus one for each reset at an
      approval boundary; and as many resets as the journal has on record. */
  lemma DispatchedAtMostOncePerBoundary(request: string -> Identity, s: State, actions: seq<Action>, step: string)
    requires NamesSteps(request) && Initial(s) && Run(request, s, actions).Some?
    ensures var s' := Run(request, s, actions).value;
      && Dispatches(s'.trace, step) <= Resets(s'.trace, step) + (if Manifest.Dispatched(s'.journal, step) then 1 else 0)
      && Resets(s'.trace, step) == Boundaries(s'.journal, step)
  {
    RunKeepsJournalInv(request, s, actions);
    assert Counted(Run(request, s, actions).value, step);
  }

  /** Every dispatch that follows a reset comes after that boundary's approval was granted. */
  lemma DispatchNeedsApproval(request: string -> Identity, s: State, actions: seq<Action>, k: nat)
    requires NamesSteps(request) && Initial(s) && Run(request, s, actions).Some?
    requires k < |Run(request, s, actions).value.trace| && Run(request, s, actions).value.trace[k].Dispatched?
    ensures var trace := Run(request, s, actions).value.trace;
      var b := LastReset(trace[..k], trace[k].step);
      b.Some? ==> Approved(b.value.gateId, b.value.approvalId) in trace[..k]
  {
    RunKeepsJournalInv(request, s, actions);
    var trace := Run(request, s, actions).value.trace;
    assert Granted(trace[..k], trace[k].step);
  }

  /** The step is settled in the journal and no call of it is under way. */
  predicate Final(s: State, step: string) { Manifest.Dispatched(s.journal, step) && !HoldsStep(s.pc, step) }

  /** A step reads or adds one event, and dispatches only the step it holds. */
  lemma OneEvent(request: string -> Identity, s: State, a: Action)
    requires Enabled(s, a)
    ensures var s' := Apply(request, s, a);
      s'.trace == s.trace || exists e: Event :: s'.trace == s.trace + [e] && (e.Dispatched? ==> s.pc == Marked(e.step))
  {
    var s' := Apply(request, s, a);
    if s'.trace != s.trace {
      var e := s'.trace[|s.trace|];
      assert s'.trace == s.trace + [e];
    }
  }

  lemma FinalEntry(request: string -> Identity, s: State, a: Action, step: string)
    requires NamesSteps(request) && Enabled(s, a) && Final(s, step)
    ensures var s' := Apply(request, s, a); Final(s', step) && s'.journal[step] == s.journal[step]
  {
    if a.Receive? {
      assert request(s.pc.step).stepId == s.pc.step != step;
    }
  }

  lemma FinalStep(request: string -> Identity, s: State, a: Action, step: string)
    requires NamesSteps(request) && Enabled(s, a) && Final(s, step)
    ensures var s' := Apply(request, s, a);
      Final(s', step) && s'.journal[step] == s.journal[step] && Dispatches(s'.trace, step) == Dispatches(s.trace, step)
  {
    var s' := Apply(request, s, a);
    FinalEntry(request, s, a, step);
    OneEvent(request, s, a);
    if s'.trace != s.trace {
      var e: Event :| s'.trace == s.trace + [e] && (e.Dispatched? ==> s.pc == Marked(e.step));
      TraceSnoc(s.trace, e, step);
    }
  }

  /** Once a step is left outcome_unknown, or committed, no later run dispatches it again and its
      journal entry never changes. */
  lemma {:induction false} SettledStaysSettled(
      request: string -> Identity, s: State, actions: seq<Action>, step: string)
    requires NamesSteps(request) && Run(request, s, actions).Some? && Final(s, step)
    ensures var s' := Run(request, s, actions).value;
      Final(s', step) && s'.journal[step] == s.journal[step] && Dispatches(s'.trace, step) == Dispatches(s.trace, step)
    decreases |actions|
  {
    if actions != [] {
      FinalStep(request, s, actions[0], step);
      SettledStaysSettled(request, Apply(request, s, actions[0]), actions[1..], step);
    }
  }

  // ---------------------------------------------------------------- main results: the plan

  predicate Current(pc: Pc) { !pc.Idle? && !pc.Top? }

  /** A step in_progress is the one selection would pick, and a running command works on it. */
  ghost predicate PlanInv(s: State) {
    && DistinctIds(s.plan)
    && (forall i :: 0 <= i < |s.plan| && s.plan[i].status.InProgress? ==> IsSelection(s.plan, Selected(i)))
    && (Current(s.pc) ==> exists i :: 0 <= i < |s.plan| && s.plan[i].id == s.pc.step && s.plan[i].status.InProgress?)
  }

  lemma ReadinessOfOthers(p: Plan, i: nat, k: nat)
    requires DistinctIds(p) && i < |p| && k < |p| && OpenStatus(p[i].status)
    ensures DependenciesSatisfied(p[i := p[i].(status := InProgress)], p[k]) <==> DependenciesSatisfied(p, p[k])
  {
    var q := p[i := p[i].(status := InProgress)];
    forall d
      ensures IsDone(q, d) <==> IsDone(p, d)
    {
      if StatusOf(q, d).Some? {
        var n := StatusIndex(q, d);
        StatusAt(q, n);
        StatusAt(p, n);
      } else if StatusOf(p, d).Some? {
        var n := StatusIndex(p, d);
        StatusAt(q, n);
      }
    }
  }

  /** Making the selected step current changes that step only: nothing else is in_progress. */
  lemma ChooseTouchesOneStep(s: State, i: nat)
    requires PlanInv(s) && Enabled(s, Choose(i))
    ensures SyncCurrent(s.plan, s.plan[i].id) == s.plan[i := s.plan[i].(status := InProgress)]
  {
    assert IsSelection(s.plan, Selected(i));
    forall k | 0 <= k < |s.plan| && k != i
      ensures !s.plan[k].status.InProgress? && s.plan[k].id != s.plan[i].id
    {
      if s.plan[k].status.InProgress? {
        SelectionUnique(s.plan, Selected(k), Selected(i));
      }
    }
    assert SyncCurrent(s.plan, s.plan[i].id) == s.plan[i := s.plan[i].(status := InProgress)];
  }

  lemma ChooseKeepsPlan(request: string -> Identity, s: State, i: nat)
    requires PlanInv(s) && Enabled(s, Choose(i))
    ensures PlanInv(Apply(request, s, Choose(i)))
  {
    ChooseTouchesOneStep(s, i);
    var q := s.plan[i := s.plan[i].(status := InProgress)];
    forall k | 0 <= k < i
      ensures Waiting(q, k)
    {
      assert Waiting(s.plan, k);
      ReadinessOfOthers(s.plan, i, k);
    }
    ReadinessOfOthers(s.plan, i, i);
    assert IsSelection(q, Selected(i));
    assert IsSelection(s.plan, Selected(i));
    forall k | 0 <= k < |q| && q[k].status.InProgress?
      ensures k == i
    {
      if k != i { SelectionUnique(s.plan, Selected(k), Selected(i)); }
    }
    assert q[i].id == s.plan[i].id && q[i].status.InProgress?;
  }

  lemma ConcludeKeepsPlan(request: string -> Identity, s: State)
    requires PlanInv(s) && s.pc.Concluding? && Terminal(s.pc.status)
    ensures PlanInv(Apply(request, s, Conclude))
  {
    var q := SyncTerminal(s.plan, s.pc.step, s.pc.status);
    var i :| 0 <= i < |s.plan| && s.plan[i].id == s.pc.step && s.plan[i].status.InProgress?;
    forall k | 0 <= k < |q|
      ensures !q[k].status.InProgress?
    {
      if k != i && s.plan[k].status.InProgress? {
        SelectionUnique(s.plan, Selected(k), Selected(i));
      }
    }
  }

  ghost predicate TerminalPending(s: State) { s.pc.Concluding? ==> Terminal(s.pc.status) }

  lemma StepKeepsPlanInv(request: string -> Identity, s: State, a: Action)
    requires PlanInv(s) && TerminalPending(s) && Enabled(s, a)
    ensures PlanInv(Apply(request, s, a)) && TerminalPending(Apply(request, s, a))
  {
    if a.Choose? {
      ChooseKeepsPlan(request, s, a.index);
    } else if a.Conclude? {
      ConcludeKeepsPlan(request, s);
    } else {
      var s' := Apply(request, s, a);
      assert s'.plan == s.plan && (Current(s'.pc) ==> Current(s.pc) && s'.pc.step == s.pc.step);
    }
  }

  /** The step's own result was projected on the plan at some time. */
  predicate WasConcluded(trace: seq<Event>, step: string) {
    exists k :: 0 <= k < |trace| && trace[k].Concluded? && trace[k].step == step && trace[k].status != Failed
  }

  ghost predicate DoneWereConcluded(entry: Plan, s: State) {
    && |s.plan| == |entry|
    && forall i :: 0 <= i < |entry| ==>
         s.plan[i].id == entry[i].id
         && (DoneStatus(s.plan[i].status) && !DoneStatus(entry[i].status) ==> WasConcluded(s.trace, entry[i].id))
  }

  lemma StepConcludes(request: string -> Identity, entry: Plan, s: State, a: Action)
    requires PlanInv(s) && TerminalPending(s) && Enabled(s, a) && DoneWereConcluded(entry, s)
    ensures DoneWereConcluded(entry, Apply(request, s, a))
  {
    var s' := Apply(request, s, a);
    if a.Choose? { ChooseTouchesOneStep(s, a.index); }
    assert s.trace <= s'.trace;
    if a.Conclude? { assert s'.trace[|s.trace|] == Concluded(s.pc.step, s.pc.status); }
    forall i | 0 <= i < |entry| && DoneStatus(s'.plan[i].status) && !DoneStatus(entry[i].status)
      ensures WasConcluded(s'.trace, entry[i].id)
    {
      if DoneStatus(s.plan[i].status) {
        var k :| 0 <= k < |s.trace| && s.trace[k].Concluded? && s.trace[k].step == entry[i].id
                 && s.trace[k].status != Failed;
        assert s'.trace[k] == s.trace[k];
      } else {
        assert s'.trace[|s.trace|].step == entry[i].id;
      }
    }
  }

  lemma {:induction false} RunKeepsPlan(request: string -> Identity, entry: Plan, s: State, actions: seq<Action>)
    requires PlanInv(s) && TerminalPending(s) && DoneWereConcluded(entry, s) && Run(request, s, actions).Some?
    ensures var s' := Run(request, s, actions).value;
      PlanInv(s') && TerminalPending(s') && DoneWereConcluded(entry, s')
    decreases |actions|
  {
    if actions != [] {
      StepConcludes(request, entry, s, actions[0]);
      StepKeepsPlanInv(request, s, actions[0]);
      RunKeepsPlan(request, entry, Apply(request, s, actions[0]), actions[1..]);
    }
  }

  /** From a plan nobody has started, through any runs and crashes and without outside plan edits,
      a step is never completed on the side: it becomes done only when its own result is projected. */
  lemma NothingCompletedOnTheSide(request: string -> Identity, s: State, actions: seq<Action>, i: nat)
    requires Initial(s) && Run(request, s, actions).Some? && i < |s.plan| && !DoneStatus(s.plan[i].status)
    ensures var s' := Run(request, s, actions).value;
      |s'.plan| == |s.plan| && (DoneStatus(s'.plan[i].status) ==> WasConcluded(s'.trace, s.plan[i].id))
  {
    RunKeepsPlan(request, s.plan, s, actions);
  }

  // ---------------------------------------------------------------- main results: dependency order

  /** The step's dependencies were done at entry or had their own results projected. */
  ghost predicate Readied(entry: Plan, before: seq<Event>, step: string) {
    forall i, d :: 0 <= i < |entry| && entry[i].id == step && d in entry[i].dependsOn ==>
      IsDone(entry, d) || WasConcluded(before, d)
  }

  ghost predicate DispatchesOrdered(entry: Plan, trace: seq<Event>) {
    forall k :: 0 <= k < |trace| && trace[k].Dispatched? ==> Readied(entry, trace[..k], trace[k].step)
  }

  ghost predicate SameDependencies(entry: Plan, plan: Plan) {
    |plan| == |entry| && forall i :: 0 <= i < |entry| ==>
      plan[i].id == entry[i].id && plan[i].dependsOn == entry[i].dependsOn
  }

  lemma OrderedSnoc(entry: Plan, trace: seq<Event>, e: Event)
    requires DispatchesOrdered(entry, trace) && (e.Dispatched? ==> Readied(entry, trace, e.step))
    ensures DispatchesOrdered(entry, trace + [e])
  {
    var more := trace + [e];
    forall k | 0 <= k < |more| && more[k].Dispatched?
      ensures Readied(entry, more[..k], more[k].step)
    {
      assert more[..k] == if k < |trace| then trace[..k] else trace;
    }
  }

  /** A running command works on the step that selection would pick, so its dependencies are done. */
  lemma CurrentIsReadied(entry: Plan, s: State)
    requires PlanInv(s) && DoneWereConcluded(entry, s) && SameDependencies(entry, s.plan) && Current(s.pc)
    ensures Readied(entry, s.trace, s.pc.step)
  {
    var n :| 0 <= n < |s.plan| && s.plan[n].id == s.pc.step && s.plan[n].status.InProgress?;
    assert IsSelection(s.plan, Selected(n));
    forall i, d | 0 <= i < |entry| && entry[i].id == s.pc.step && d in entry[i].dependsOn
      ensures IsDone(entry, d) || WasConcluded(s.trace, d)
    {
      assert i == n && IsDone(s.plan, d);
      var m := StatusIndex(s.plan, d);
      StatusAt(s.plan, m);
      StatusAt(entry, m);
    }
  }

  lemma StepOrdered(request: string -> Identity, entry: Plan, s: State, a: Action)
    requires PlanInv(s) && DoneWereConcluded(entry, s) && SameDependencies(entry, s.plan)
    requires DispatchesOrdered(entry, s.trace) && Enabled(s, a)
    ensures var s' := Apply(request, s, a); DispatchesOrdered(entry, s'.trace) && SameDependencies(entry, s'.plan)
  {
    var s' := Apply(request, s, a);
    OneEvent(request, s, a);
    if s'.trace != s.trace {
      var e: Event :| s'.trace == s.trace + [e] && (e.Dispatched? ==> s.pc == Marked(e.step));
      if e.Dispatched? { CurrentIsReadied(entry, s); }
      OrderedSnoc(entry, s.trace, e);
    }
  }

  lemma {:induction false} RunOrdered(request: string -> Identity, entry: Plan, s: State, actions: seq<Action>)
    requires PlanInv(s) && TerminalPending(s) && DoneWereConcluded(entry, s) && SameDependencies(entry, s.plan)
    requires DispatchesOrdered(entry, s.trace) && Run(request, s, actions).Some?
    ensures DispatchesOrdered(entry, Run(request, s, actions).value.trace)
    decreases |actions|
  {
    if actions != [] {
      StepConcludes(request, entry, s, actions[0]);
      StepKeepsPlanInv(request, s, actions[0]);
      StepOrdered(request, entry, s, actions[0]);
      RunOrdered(request, entry, Apply(request, s, actions[0]), actions[1..]);
    }
  }

  /** Over all runs and crashes of a plan nobody has started: whenever a step is dispatched, each of
      its dependencies was done at the start, or its own result had been projected before. */
  lemma DependenciesComeFirst(request: string -> Identity, s: State, actions: seq<Action>, k: nat, i: nat, d: string)
    requires Initial(s) && Run(request, s, actions).Some? && k < |Run(request, s, actions).value.trace|
    requires i < |s.plan| && Run(request, s, actions).value.trace[k] == Dispatched(s.plan[i].id)
    requires d in s.plan[i].dependsOn
    ensures IsDone(s.plan, d) || WasConcluded(Run(request, s, actions).value.trace[..k], d)
  {
    RunOrdered(request, s.plan, s, actions);
    var trace := Run(request, s, actions).value.trace;
    assert Readied(s.plan, trace[..k], trace[k].step);
  }
}
