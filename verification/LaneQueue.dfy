/** One run at a time per run id: the queue of lanes that concurrent generators wait in.

    A generator arrives, enters once the lane before it is released, and finishes.  Every method
    below is one uninterrupted stretch between two of its suspension points; generators on the same
    or different run ids interleave in any order. */
module LaneQueue {
  import opened Common

  datatype Phase = Waiting | Inside | Finished

  /** A lane with the one it waits for: the entry the queue had when it arrived. */
  datatype Lane = Lane(runId: string, prior: Option<nat>, phase: Phase)

  predicate SameRun(lanes: seq<Lane>, i: nat, k: nat)
    requires i < |lanes| && k < |lanes|
  {
    lanes[i].runId == lanes[k].runId
  }

  predicate Unfinished(lanes: seq<Lane>, run: string, i: nat)
    requires i < |lanes|
  {
    lanes[i].runId == run && !lanes[i].phase.Finished?
  }

  /** Whatever arrived before lane i on its run id has finished. */
  ghost predicate Clear(lanes: seq<Lane>, i: nat)
    requires i < |lanes|
  {
    forall k :: 0 <= k < i && SameRun(lanes, k, i) ==> lanes[k].phase.Finished?
  }

  /** A lane waits for the last one before it on its run id, unless all of those had finished. */
  ghost predicate PriorOk(lanes: seq<Lane>, i: nat)
    requires i < |lanes|
  {
    match lanes[i].prior
    case None => Clear(lanes, i)
    case Some(p) => p < i && SameRun(lanes, p, i) && forall k :: p < k < i ==> !SameRun(lanes, k, i)
  }

  /** The entry is the newest lane of its run id, and it has not finished. */
  ghost predicate NamesNewest(lanes: seq<Lane>, run: string, entry: nat) {
    && entry < |lanes| && Unfinished(lanes, run, entry)
    && forall k :: entry < k < |lanes| ==> lanes[k].runId != run
  }

  ghost predicate QueueOk(lanes: seq<Lane>, queue: map<string, nat>) {
    && (forall run :: run in queue ==> NamesNewest(lanes, run, queue[run]))
    && (forall i :: 0 <= i < |lanes| && !lanes[i].phase.Finished? ==> lanes[i].runId in queue)
  }

  ghost predicate LanesOk(lanes: seq<Lane>) {
    && (forall i :: 0 <= i < |lanes| ==> PriorOk(lanes, i))
    && (forall i :: 0 <= i < |lanes| && !lanes[i].phase.Waiting? ==> Clear(lanes, i))
  }

  predicate MayEnter(lanes: seq<Lane>, i: nat) {
    && i < |lanes| && lanes[i].phase.Waiting?
    && (lanes[i].prior.Some? ==> lanes[i].prior.value < |lanes| && lanes[lanes[i].prior.value].phase.Finished?)
  }

  /** At most one generator per run id is inside. */
  lemma OneInside(lanes: seq<Lane>, i: nat, k: nat)
    requires LanesOk(lanes) && i < |lanes| && k < |lanes| && SameRun(lanes, i, k)
    requires lanes[i].phase.Inside? && lanes[k].phase.Inside?
    ensures i == k
  {
    assert Clear(lanes, i) && Clear(lanes, k);
  }

  /** Generators enter in arrival order: nobody enters before everyone ahead has finished. */
  lemma EntersInOrder(lanes: seq<Lane>, i: nat)
    requires LanesOk(lanes) && MayEnter(lanes, i)
    ensures Clear(lanes, i)
  {
    assert PriorOk(lanes, i);
    if lanes[i].prior.Some? { assert Clear(lanes, lanes[i].prior.value); }
  }

  /** The queue never blocks: of the unfinished lanes of a run id, the oldest is inside or may enter. */
  lemma OldestMoves(lanes: seq<Lane>, i: nat)
    requires LanesOk(lanes) && i < |lanes| && !lanes[i].phase.Finished? && Clear(lanes, i)
    ensures lanes[i].phase.Inside? || MayEnter(lanes, i)
  {
    assert PriorOk(lanes, i);
  }

  /** The entry is there exactly while some lane of the run id is unfinished. */
  lemma EntryWhileUnfinished(lanes: seq<Lane>, queue: map<string, nat>, run: string)
    requires QueueOk(lanes, queue)
    ensures run in queue <==> exists i :: 0 <= i < |lanes| && Unfinished(lanes, run, i)
    ensures run in queue ==>
      forall i :: 0 <= i < |lanes| && Unfinished(lanes, run, i) ==> i <= queue[run]
  {
    if run in queue { assert NamesNewest(lanes, run, queue[run]); }
  }

  class RunLanes {
    var lanes: seq<Lane>
    var queue: map<string, nat>

    ghost predicate Valid()
      reads this
    {
      LanesOk(lanes) && QueueOk(lanes, queue)
    }

    constructor ()
      ensures Valid() && lanes == [] && queue == map[]
    {
      lanes, queue := [], map[];
    }

    /** From the call of run to the first await. */
    method Arrive(run: string) returns (lane: nat)
      requires Valid()
      modifies this
      ensures Valid()
      ensures lane == |old(lanes)|
      ensures lanes == old(lanes) + [Lane(run, if run in old(queue) then Some(old(queue)[run]) else None, Waiting)]
      ensures queue == old(queue)[run := lane]
    {
      lane := |lanes|;
      var prior := if run in queue then Some(queue[run]) else None;
      Arrived(lanes, queue, run);
      lanes := lanes + [Lane(run, prior, Waiting)];
      queue := queue[run := lane];
    }

    /** The prior lane has been released. */
    method Enter(lane: nat)
      requires Valid() && MayEnter(lanes, lane)
      modifies this`lanes
      ensures Valid() && lanes == old(lanes)[lane := old(lanes)[lane].(phase := Inside)]
      ensures forall k :: 0 <= k < |lanes| && k != lane && SameRun(lanes, k, lane) ==> !lanes[k].phase.Inside?
    {
      EntersInOrder(lanes, lane);
      Advanced(lanes, queue, lane, Inside);
      lanes := lanes[lane := lanes[lane].(phase := Inside)];
    }

    /** The finally block: release the lane, and drop the entry if it is still this lane's. */
    method Finish(lane: nat)
      requires Valid() && lane < |lanes| && lanes[lane].phase.Inside?
      modifies this
      ensures Valid() && lanes == old(lanes)[lane := old(lanes)[lane].(phase := Finished)]
      ensures queue == if old(queue)[old(lanes)[lane].runId] == lane then old(queue) - {old(lanes)[lane].runId}
                       else old(queue)
    {
      var run := lanes[lane].runId;
      LanesAdvanced(lanes, lane, Finished);
      Released(lanes, queue, lane);
      lanes := lanes[lane := lanes[lane].(phase := Finished)];
      if queue[run] == lane { queue := queue - {run}; }
    }
  }

  lemma Arrived(lanes: seq<Lane>, queue: map<string, nat>, run: string)
    requires LanesOk(lanes) && QueueOk(lanes, queue)
    ensures var more := lanes + [Lane(run, if run in queue then Some(queue[run]) else None, Waiting)];
      LanesOk(more) && QueueOk(more, queue[run := |lanes|])
  {
    var prior := if run in queue then Some(queue[run]) else None;
    var more := lanes + [Lane(run, prior, Waiting)];
    forall i | 0 <= i < |lanes|
      ensures PriorOk(more, i) && (!more[i].phase.Waiting? ==> Clear(more, i))
    {
      assert PriorOk(lanes, i);
      assert forall k :: 0 <= k <= i ==> more[k] == lanes[k];
      assert forall k :: 0 <= k <= i ==> SameRun(more, k, i) == SameRun(lanes, k, i);
      assert Clear(lanes, i) ==> Clear(more, i);
    }
    assert PriorOk(more, |lanes|) by {
      if run in queue { assert NamesNewest(lanes, run, queue[run]); }
    }
    forall r | r in queue && r != run
      ensures NamesNewest(more, r, queue[r])
    {
      assert NamesNewest(lanes, r, queue[r]);
    }
  }

  /** A lane moves on when everything before it has finished. */
  lemma LanesAdvanced(lanes: seq<Lane>, lane: nat, phase: Phase)
    requires LanesOk(lanes) && lane < |lanes| && Clear(lanes, lane) && !lanes[lane].phase.Finished?
    ensures LanesOk(lanes[lane := lanes[lane].(phase := phase)])
  {
    var after := lanes[lane := lanes[lane].(phase := phase)];
    forall i | 0 <= i < |after|
      ensures PriorOk(after, i) && (!after[i].phase.Waiting? ==> Clear(after, i))
    {
      assert PriorOk(lanes, i);
      assert forall k :: 0 <= k <= i ==> SameRun(after, k, i) == SameRun(lanes, k, i);
      assert lane < i && SameRun(lanes, lane, i) ==> !Clear(lanes, i);
      assert Clear(lanes, i) ==> Clear(after, i);
    }
  }

  lemma Advanced(lanes: seq<Lane>, queue: map<string, nat>, lane: nat, phase: Phase)
    requires LanesOk(lanes) && QueueOk(lanes, queue) && lane < |lanes| && Clear(lanes, lane)
    requires !lanes[lane].phase.Finished? && !phase.Finished?
    ensures var after := lanes[lane := lanes[lane].(phase := phase)];
      LanesOk(after) && QueueOk(after, queue)
    ensures forall k :: 0 <= k < |lanes| && k != lane && SameRun(lanes, k, lane) ==> !lanes[k].phase.Inside?
  {
    LanesAdvanced(lanes, lane, phase);
    var after := lanes[lane := lanes[lane].(phase := phase)];
    forall run | run in queue
      ensures NamesNewest(after, run, queue[run])
    {
      assert NamesNewest(lanes, run, queue[run]);
    }
    forall k | 0 <= k < |lanes| && k != lane && SameRun(lanes, k, lane)
      ensures !lanes[k].phase.Inside?
    {
      assert k > lane && !lanes[k].phase.Waiting? ==> Clear(lanes, k) && SameRun(lanes, lane, k);
    }
  }

  lemma Released(lanes: seq<Lane>, queue: map<string, nat>, lane: nat)
    requires LanesOk(lanes) && QueueOk(lanes, queue) && lane < |lanes| && lanes[lane].phase.Inside?
    ensures lanes[lane].runId in queue
    ensures QueueOk(lanes[lane := lanes[lane].(phase := Finished)],
                    if queue[lanes[lane].runId] == lane then queue - {lanes[lane].runId} else queue)
  {
    var run, after := lanes[lane].runId, lanes[lane := lanes[lane].(phase := Finished)];
    assert Clear(lanes, lane);
    assert NamesNewest(lanes, run, queue[run]);
    forall r | r in queue && (r != run || queue[run] != lane)
      ensures NamesNewest(after, r, queue[r])
    {
      assert NamesNewest(lanes, r, queue[r]);
    }
    if queue[run] == lane {
      forall i | 0 <= i < |after| && !after[i].phase.Finished?
        ensures after[i].runId != run
      {
        assert i < lane ==> !SameRun(lanes, i, lane);
      }
    }
  }
}
