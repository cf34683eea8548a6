/** The durable journal of tool attempts: one manifest file per run.

    The file holds two lists, the pending intents and the committed checkpoints.
    A public operation loads the file under a lock, edits the lists in memory and
    writes them back; an exception thrown before the write leaves the file alone.
    The class below has that shape.  `journal` is the abstract view used by the
    protocol modules: one entry per step id. */
module Manifest {
  import opened Common

  /** What parseRunGateApprovalRequest makes of a tool's JSON reply. */
  datatype Envelope = Ordinary | Malformed | Approval(boundary: Boundary)

  datatype ToolResult = ToolResult(isError: bool, rawText: string, envelope: Envelope)

  /** The input is compared through its digest; the model keeps the digest's preimage. */
  datatype Identity = Identity(stepId: string, toolName: string, input: string)

  datatype Boundary =
    Boundary(gateId: string, runId: string, approvalId: string, packetPath: string, packetSha256: string)

  datatype Reply = TransportError | Replied(result: ToolResult)

  /** A journal write that throws may or may not have reached the disk. */
  datatype Write = Clean | LostWrite | LateError

  datatype IntentState = NotStarted | OutcomeUnknown

  datatype Intent = Intent(id: Identity, state: IntentState, boundaries: nat, last: Option<Boundary>)

  datatype Checkpoint = Checkpoint(id: Identity, result: ToolResult, boundaries: nat, last: Option<Boundary>)

  /** What the journal says of one step. */
  datatype Entry =
    | Pending(id: Identity, state: IntentState, boundaries: nat, last: Option<Boundary>)
    | Committed(id: Identity, result: ToolResult, boundaries: nat, last: Option<Boundary>)

  type Journal = map<string, Entry>

  datatype Classification = Missing | Open(state: IntentState) | Done(result: ToolResult)

  // ---------------------------------------------------------------- what may be put on file

  /** validateIdentity. */
  predicate Named(a: Identity) { !Blank(a.stepId) && !Blank(a.toolName) }

  predicate AllNamed(attempts: seq<Identity>) { forall a :: a in attempts ==> Named(a) }

  predicate GateName(s: string) { |s| == 2 && s[0] == 'A' && '1' <= s[1] <= '5' }

  predicate RunIdChar(c: char) {
    'A' <= c <= 'Z' || 'a' <= c <= 'z' || '0' <= c <= '9' || c == '.' || c == '_' || c == '-'
  }

  predicate DotsAt(s: string, i: int) { 0 <= i < |s| - 1 && s[i] == '.' && s[i + 1] == '.' }

  /** assertSafeRunId. */
  predicate SafeRunId(s: string) {
    && s != "" && s != "." && (forall i :: 0 <= i < |s| ==> RunIdChar(s[i]))
    && forall i :: 0 <= i < |s| ==> !DotsAt(s, i)
  }

  predicate IsSlash(c: char) { c == '/' || c == '\\' }

  predicate IsLetter(c: char) { 'A' <= c <= 'Z' || 'a' <= c <= 'z' }

  /** Neither absolute nor climbing: no path segment is exactly "..". */
  predicate ProjectRelative(s: string) {
    && !(s != "" && IsSlash(s[0]))
    && !(|s| >= 3 && IsLetter(s[0]) && s[1] == ':' && IsSlash(s[2]))
    && forall i :: 0 <= i < |s| && DotsAt(s, i) ==>
         (i > 0 && !IsSlash(s[i - 1])) || (i + 2 < |s| && !IsSlash(s[i + 2]))
  }

  /** The parts of a path between its slashes, the first of which goes on from `part`. */
  function Segments(s: string, part: string): seq<string> {
    if s == "" then [part]
    else if IsSlash(s[0]) then [part] + Segments(s[1..], "")
    else Segments(s[1..], part + [s[0]])
  }

  /** ".." between slashes, or between a slash and an end. */
  predicate ClimbsAt(s: string, i: int) {
    && 0 <= i < |s| && DotsAt(s, i) && (i == 0 || IsSlash(s[i - 1])) && (i + 2 == |s| || IsSlash(s[i + 2]))
  }

  /** Some segment of the path, the first one or one after position n, is "..". */
  ghost predicate ClimbsAfter(s: string, n: int) { ClimbsAt(s, 0) || exists i :: ClimbsAt(s, i) && i > n }

  lemma {:induction false} SegmentsClimb(s: string, part: string)
    requires forall i :: 0 <= i < |part| ==> !IsSlash(part[i])
    ensures ".." in Segments(s, part) <==> ClimbsAfter(part + s, |part|)
    decreases |s|
  {
    if s == "" {
      assert part + s == part && (ClimbsAt(part, 0) <==> part == "..");
      assert ".." in [part] <==> part == "..";
    } else if IsSlash(s[0]) {
      SegmentsClimb(s[1..], "");
      assert "" + s[1..] == s[1..];
      ClimbsAfterSlash(part, s);
    } else {
      assert (part + [s[0]]) + s[1..] == part + s;
      SegmentsClimb(s[1..], part + [s[0]]);
      assert (part + s)[|part|] == s[0] && !ClimbsAt(part + s, |part| + 1);
    }
  }

  lemma ClimbsAfterSlash(part: string, s: string)
    requires s != "" && IsSlash(s[0]) && forall i :: 0 <= i < |part| ==> !IsSlash(part[i])
    ensures ClimbsAfter(part + s, |part|) <==> part == ".." || ClimbsAfter(s[1..], 0)
  {
    var all, n, rest := part + s, |part| + 1, s[1..];
    assert all[n..] == rest && all[n - 1] == s[0];
    assert ClimbsAt(all, 0) <==> part == "..";
    if i :| ClimbsAt(all, i) && i > |part| { ClimbShift(all, n, i - n); }
    if i :| ClimbsAt(rest, i) {
      ClimbShift(all, n, i);
      assert ClimbsAt(all, i + n);
    }
  }

  lemma ClimbShift(s: string, n: nat, i: int)
    requires 0 < n <= |s| && IsSlash(s[n - 1])
    ensures ClimbsAt(s[n..], i) <==> i >= 0 && ClimbsAt(s, i + n)
  {
  }

  /** A path is relative to the project exactly when it is not absolute and no segment is "..". */
  lemma ProjectRelativeMeans(s: string)
    ensures ProjectRelative(s) <==>
      && !("/" <= s) && !("\\" <= s)
      && !(|s| >= 3 && IsLetter(s[0]) && s[1] == ':' && (s[2] == '/' || s[2] == '\\'))
      && ".." !in Segments(s, "")
  {
    SegmentsClimb(s, "");
    assert "" + s == s;
    var absolute := (s != "" && IsSlash(s[0])) || (|s| >= 3 && IsLetter(s[0]) && s[1] == ':' && IsSlash(s[2]));
    if !ProjectRelative(s) && !absolute {
      var i :| 0 <= i < |s| && DotsAt(s, i) && !((i > 0 && !IsSlash(s[i - 1])) || (i + 2 < |s| && !IsSlash(s[i + 2])));
      assert ClimbsAt(s, i);
    }
  }

  predicate HexDigit(c: char) { '0' <= c <= '9' || 'a' <= c <= 'f' || 'A' <= c <= 'F' }

  predicate Sha256(s: string) { |s| == 64 && forall i :: 0 <= i < |s| ==> HexDigit(s[i]) }

  /** The five gates. */
  lemma GateNames(s: string)
    ensures GateName(s) <==> s == "A1" || s == "A2" || s == "A3" || s == "A4" || s == "A5"
  {
  }

  /** Run ids hold letters, digits, dots, underscores and hyphens, and no two dots in a row. */
  lemma SafeRunIdMeans(s: string)
    ensures SafeRunId(s) <==>
      && |s| > 0 && s != "." && (forall c :: c in s ==> RunIdChar(c))
      && forall a: string, b: string :: s != a + ".." + b
  {
    forall i | 0 <= i < |s| && DotsAt(s, i)
      ensures s == s[..i] + ".." + s[i + 2..]
    {
    }
    if a: string, b: string :| s == a + ".." + b { assert DotsAt(s, |a|) && s[|a|] == '.' && s[|a| + 1] == '.'; }
  }

  /** The character classes, at their edges. */
  lemma ClassEdges()
    ensures RunIdChar('A') && RunIdChar('Z') && RunIdChar('a') && RunIdChar('z') && RunIdChar('0') && RunIdChar('9')
    ensures RunIdChar('.') && RunIdChar('_') && RunIdChar('-')
    ensures !RunIdChar('@') && !RunIdChar(0x5B as char) && !RunIdChar(0x60 as char) && !RunIdChar(0x7B as char)
    ensures !RunIdChar('/') && !RunIdChar(':')
    ensures HexDigit('0') && HexDigit('9') && HexDigit('a') && HexDigit('f') && HexDigit('A') && HexDigit('F')
    ensures !HexDigit('/') && !HexDigit(':')
    ensures !HexDigit(0x60 as char) && !HexDigit('g') && !HexDigit('@') && !HexDigit('G')
    ensures IsLetter('A') && IsLetter('Z') && IsLetter('a') && IsLetter('z')
    ensures !IsLetter('@') && !IsLetter(0x5B as char) && !IsLetter(0x60 as char) && !IsLetter(0x7B as char)
  {
  }

  /** validateApprovalBoundary. */
  predicate ValidBoundary(b: Boundary) {
    && GateName(b.gateId) && SafeRunId(b.runId) && !Blank(b.approvalId) && !Blank(b.packetPath)
    && ProjectRelative(b.packetPath) && Sha256(b.packetSha256)
  }

  /** A boundary is recorded if and only if it names a gate, a safe run, an approval, a relative packet
      path and a digest of 64 hexadecimal digits. */
  lemma ValidBoundaryMeans(b: Boundary)
    ensures ValidBoundary(b) <==>
      && |b.gateId| == 2 && b.gateId[0] == 'A' && b.gateId[1] in {'1', '2', '3', '4', '5'}
      && SafeRunId(b.runId)
      && (exists i :: 0 <= i < |b.approvalId| && !IsSpace(b.approvalId[i]))
      && (exists i :: 0 <= i < |b.packetPath| && !IsSpace(b.packetPath[i])) && ProjectRelative(b.packetPath)
      && |b.packetSha256| == 64 && forall c :: c in b.packetSha256 ==> HexDigit(c)
  {
  }

  /** An attempt is named when neither its step id nor its tool name is blank. */
  lemma NamedMeans(a: Identity)
    ensures Named(a) <==>
      && (exists i :: 0 <= i < |a.stepId| && !IsSpace(a.stepId[i]))
      && (exists i :: 0 <= i < |a.toolName| && !IsSpace(a.toolName[i]))
  {
  }

  // ---------------------------------------------------------------- abstract operations

  predicate Keyed(j: Journal) { forall s :: s in j ==> j[s].id.stepId == s }

  /** The step's tool may already have been called: neither missing nor not started. */
  predicate Dispatched(j: Journal, step: string) {
    step in j && (j[step].Committed? || j[step].state == OutcomeUnknown)
  }

  function Boundaries(j: Journal, step: string): nat {
    if step in j then j[step].boundaries else 0
  }

  predicate Matches(j: Journal, a: Identity) {
    a.stepId in j ==> j[a.stepId].id == a
  }

  predicate AllMatch(j: Journal, attempts: seq<Identity>) {
    forall a :: a in attempts ==> Matches(j, a)
  }

  function ClassOf(j: Journal, step: string): Classification {
    if step !in j then Missing
    else if j[step].Pending? then Open(j[step].state)
    else Done(j[step].result)
  }

  function ObserveOne(j: Journal, a: Identity): Journal {
    if a.stepId in j then j else j[a.stepId := Pending(a, NotStarted, 0, None)]
  }

  function ObserveAll(j: Journal, attempts: seq<Identity>): Journal {
    if attempts == [] then j else ObserveOne(ObserveAll(j, attempts[..|attempts| - 1]), attempts[|attempts| - 1])
  }

  predicate DistinctSteps(attempts: seq<Identity>) {
    forall i, k :: 0 <= i < k < |attempts| ==> attempts[i].stepId != attempts[k].stepId
  }

  predicate CanMarkOne(j: Journal, a: Identity) {
    a.stepId in j && j[a.stepId].id == a && j[a.stepId].Pending? && j[a.stepId].state == NotStarted
  }

  predicate CanMark(j: Journal, attempts: seq<Identity>) {
    DistinctSteps(attempts) && forall a :: a in attempts ==> CanMarkOne(j, a)
  }

  predicate HasStep(attempts: seq<Identity>, step: string) {
    exists a :: a in attempts && a.stepId == step
  }

  /** All of `attempts` leave not_started together, in one write. */
  function MarkAll(j: Journal, attempts: seq<Identity>): Journal {
    map s | s in j :: if HasStep(attempts, s) && j[s].Pending? then j[s].(state := OutcomeUnknown) else j[s]
  }

  predicate CanSettle(j: Journal, a: Identity) {
    a.stepId in j && j[a.stepId].id == a && j[a.stepId].Pending? && j[a.stepId].state == OutcomeUnknown
  }

  function CommitOne(j: Journal, a: Identity, r: ToolResult): Journal
    requires CanSettle(j, a)
  {
    j[a.stepId := Committed(a, r, j[a.stepId].boundaries, j[a.stepId].last)]
  }

  function ResetOne(j: Journal, a: Identity, b: Boundary): Journal
    requires CanSettle(j, a)
  {
    j[a.stepId := Pending(a, NotStarted, j[a.stepId].boundaries + 1, Some(b))]
  }

  lemma {:induction false} ObserveAllEntries(j: Journal, attempts: seq<Identity>)
    ensures j.Keys <= ObserveAll(j, attempts).Keys
    ensures forall s :: s in j ==> ObserveAll(j, attempts)[s] == j[s]
    ensures forall s :: s in ObserveAll(j, attempts) && s !in j ==>
                          HasStep(attempts, s) && ObserveAll(j, attempts)[s].Pending?
                          && ObserveAll(j, attempts)[s].state == NotStarted
                          && ObserveAll(j, attempts)[s].boundaries == 0
    ensures forall a :: a in attempts ==> a.stepId in ObserveAll(j, attempts)
  {
    if attempts != [] {
      var front, last := attempts[..|attempts| - 1], attempts[|attempts| - 1];
      ObserveAllEntries(j, front);
      assert attempts == front + [last];
      assert forall s :: HasStep(front, s) ==> HasStep(attempts, s);
    }
  }

  // ---------------------------------------------------------------- the manifest file

  function IntentEntry(p: Intent): Entry { Pending(p.id, p.state, p.boundaries, p.last) }

  function CheckpointEntry(c: Checkpoint): Entry { Committed(c.id, c.result, c.boundaries, c.last) }

  ghost predicate HasIntent(pending: seq<Intent>, step: string) {
    exists i :: 0 <= i < |pending| && pending[i].id.stepId == step
  }

  ghost predicate HasCheckpoint(checkpoints: seq<Checkpoint>, step: string) {
    exists k :: 0 <= k < |checkpoints| && checkpoints[k].id.stepId == step
  }

  ghost predicate IntentsIn(pending: seq<Intent>, j: Journal) {
    && (forall i, k :: 0 <= i < k < |pending| ==> pending[i].id.stepId != pending[k].id.stepId)
    && (forall i :: 0 <= i < |pending| ==>
          pending[i].id.stepId in j && j[pending[i].id.stepId] == IntentEntry(pending[i]))
    && (forall s :: s in j && j[s].Pending? ==> HasIntent(pending, s))
  }

  ghost predicate CheckpointsIn(checkpoints: seq<Checkpoint>, j: Journal) {
    && (forall i, k :: 0 <= i < k < |checkpoints| ==> checkpoints[i].id.stepId != checkpoints[k].id.stepId)
    && (forall k :: 0 <= k < |checkpoints| ==>
          checkpoints[k].id.stepId in j && j[checkpoints[k].id.stepId] == CheckpointEntry(checkpoints[k]))
    && (forall s :: s in j && j[s].Committed? ==> HasCheckpoint(checkpoints, s))
  }

  /** The identity is named, and a boundary is on record, a valid one, exactly when the boundary count
      is positive. */
  ghost predicate EntryOk(e: Entry) {
    Named(e.id) && (e.boundaries == 0 <==> e.last.None?) && (e.last.Some? ==> ValidBoundary(e.last.value))
  }

  ghost predicate EntriesOk(j: Journal) { forall s :: s in j ==> EntryOk(j[s]) }

  /** The two lists hold exactly the entries of the journal. */
  ghost predicate OnFile(pending: seq<Intent>, checkpoints: seq<Checkpoint>, j: Journal) {
    IntentsIn(pending, j) && CheckpointsIn(checkpoints, j) && EntriesOk(j)
  }

  class RunManifest {
    var present: bool
    var pending: seq<Intent>
    var checkpoints: seq<Checkpoint>
    ghost var journal: Journal

    /** The conditions the validator insists on at every load and write. */
    ghost predicate Valid()
      reads this
    {
      OnFile(pending, checkpoints, journal) && (!present ==> pending == [] && checkpoints == [])
    }

    /** The key of an entry is the step id on file. */
    lemma ValidKeyed()
      requires Valid()
      ensures Keyed(journal)
    {
      forall s | s in journal
        ensures journal[s].id.stepId == s
      {
        if journal[s].Pending? {
          assert HasIntent(pending, s);
        } else {
          assert HasCheckpoint(checkpoints, s);
        }
      }
    }

    constructor ()
      ensures Valid() && !present && journal == map[]
    {
      present, pending, checkpoints, journal := false, [], [], map[];
    }

    method EnsureManifest()
      requires Valid()
      modifies this`present
      ensures Valid() && present
    {
      present := true;
    }

    method FindPending(step: string) returns (index: int)
      requires Valid()
      ensures -1 <= index < |pending|
      ensures index >= 0 ==> pending[index].id.stepId == step
                             && step in journal && journal[step] == IntentEntry(pending[index])
      ensures index < 0 <==> !(step in journal && journal[step].Pending?)
    {
      index := 0;
      while index < |pending|
        invariant 0 <= index <= |pending|
        invariant forall i :: 0 <= i < index ==> pending[i].id.stepId != step
      {
        if pending[index].id.stepId == step { return; }
        index := index + 1;
      }
      index := -1;
    }

    method FindCheckpoint(step: string) returns (index: int)
      requires Valid()
      ensures -1 <= index < |checkpoints|
      ensures index >= 0 ==> checkpoints[index].id.stepId == step
                             && step in journal && journal[step] == CheckpointEntry(checkpoints[index])
      ensures index < 0 <==> !(step in journal && journal[step].Committed?)
    {
      index := 0;
      while index < |checkpoints|
        invariant 0 <= index <= |checkpoints|
        invariant forall i :: 0 <= i < index ==> checkpoints[i].id.stepId != step
      {
        if checkpoints[index].id.stepId == step { return; }
        index := index + 1;
      }
      index := -1;
    }

    /** Whether the step is on file, and if so under the same identity. */
    method Lookup(a: Identity) returns (known: bool, same: bool)
      requires Valid()
      ensures known <==> a.stepId in journal
      ensures known ==> (same <==> journal[a.stepId].id == a)
    {
      var p := FindPending(a.stepId);
      var c := FindCheckpoint(a.stepId);
      known := p >= 0 || c >= 0;
      same := (p < 0 || pending[p].id == a) && (c < 0 || checkpoints[c].id == a);
    }

    /** Record the intents of a whole turn before any of them is dispatched. */
    method ObserveToolIntents(attempts: seq<Identity>) returns (ok: bool)
      requires Valid()
      modifies this
      ensures Valid() && present
      ensures ok <==> AllNamed(attempts) && DistinctSteps(attempts) && AllMatch(old(journal), attempts)
      ensures journal == if ok then ObserveAll(old(journal), attempts) else old(journal)
    {
      present := true;
      var edited;
      ghost var view;
      ok, edited, view := ObserveInto(attempts);
      if ok {
        pending, journal := edited, view;
      }
    }

    /** The loop of ObserveToolIntents: the edited list, or a refusal. */
    method ObserveInto(attempts: seq<Identity>) returns (ok: bool, edited: seq<Intent>, ghost view: Journal)
      requires Valid()
      ensures ok ==> Observing(journal, checkpoints, attempts, edited, view)
      ensures !ok ==> !(AllNamed(attempts) && DistinctSteps(attempts) && AllMatch(journal, attempts))
    {
      edited, view := pending, journal;
      assert attempts[..0] == [] && Observing(journal, checkpoints, [], pending, journal);
      var batch: set<string> := {};
      for n := 0 to |attempts|
        invariant batch == StepsUpTo(attempts, n)
        invariant Observing(journal, checkpoints, attempts[..n], edited, view)
      {
        ok, edited, view := ObserveNext(attempts, n, batch, edited, view);
        if !ok { return; }
        SeenBefore(attempts, n);
        batch := batch + {attempts[n].stepId};
      }
      assert attempts[..|attempts|] == attempts;
      ok := true;
    }

    /** One round of the loop: an unknown step gets an intent. */
    method ObserveNext(attempts: seq<Identity>, n: nat, batch: set<string>, before: seq<Intent>, ghost seen: Journal)
      returns (ok: bool, edited: seq<Intent>, ghost view: Journal)
      requires Valid() && n < |attempts| && batch == StepsUpTo(attempts, n)
      requires Observing(journal, checkpoints, attempts[..n], before, seen)
      ensures ok ==> Observing(journal, checkpoints, attempts[..n + 1], edited, view)
      ensures !ok ==> !(AllNamed(attempts) && DistinctSteps(attempts) && AllMatch(journal, attempts))
    {
      var a := attempts[n];
      edited, view := before, seen;
      if Blank(a.stepId) || Blank(a.toolName) {
        assert a in attempts && !Named(a);
        return false, edited, view;
      }
      SeenBefore(attempts, n);
      if a.stepId in batch { return false, edited, view; }
      var known, same := Lookup(a);
      if known && !same {
        assert a in attempts && !Matches(journal, a);
        return false, edited, view;
      }
      if !known {
        edited, view := edited + [Intent(a, NotStarted, 0, None)], view[a.stepId := Pending(a, NotStarted, 0, None)];
      }
      ObserveStep(journal, checkpoints, attempts, n, before, seen, edited, view);
      ok := true;
    }

    /** Durable dispatch intent: every attempt must still be not_started, and all of them
        become outcome_unknown in one write, before any tool is called. */
    method MarkToolIntentsDispatched(attempts: seq<Identity>) returns (ok: bool)
      requires Valid()
      modifies this
      ensures Valid() && present == old(present)
      ensures ok <==> old(present) && CanMark(old(journal), attempts)
      ensures journal == if ok then MarkAll(old(journal), attempts) else old(journal)
    {
      if !present { return false; }
      var batch;
      ok, batch := AllMarkable(attempts);
      if !ok { return; }
      var edited := MarkedIntents(batch);
      MarkKeeps(pending, edited, checkpoints, journal, attempts);
      pending, journal := edited, MarkAll(journal, attempts);
    }

    /** The check of every attempt before any of them is edited. */
    method AllMarkable(attempts: seq<Identity>) returns (ok: bool, batch: set<string>)
      requires Valid()
      ensures ok <==> CanMark(journal, attempts)
      ensures ok ==> batch == set a | a in attempts :: a.stepId
    {
      batch := {};
      for n := 0 to |attempts|
        invariant batch == set k | 0 <= k < n :: attempts[k].stepId
        invariant forall i, k :: 0 <= i < k < n ==> attempts[i].stepId != attempts[k].stepId
        invariant forall k :: 0 <= k < n ==> CanMarkOne(journal, attempts[k])
      {
        var a := attempts[n];
        if Blank(a.stepId) || Blank(a.toolName) {
          assert a in attempts && !CanMarkOne(journal, a);
          return false, batch;
        }
        if a.stepId in batch { return false, batch; }
        var p := FindPending(a.stepId);
        if p < 0 || pending[p].id != a || pending[p].state != NotStarted {
          assert a in attempts && !CanMarkOne(journal, a);
          return false, batch;
        }
        batch := batch + {a.stepId};
      }
      ok := true;
    }

    method MarkedIntents(batch: set<string>) returns (edited: seq<Intent>)
      ensures |edited| == |pending|
      ensures forall i :: 0 <= i < |pending| ==> edited[i] == MarkIntent(pending[i], batch)
    {
      edited := pending;
      var m := 0;
      while m < |edited|
        invariant 0 <= m <= |edited| == |pending|
        invariant forall i :: 0 <= i < m ==> edited[i] == MarkIntent(pending[i], batch)
        invariant forall i :: m <= i < |pending| ==> edited[i] == pending[i]
      {
        if edited[m].id.stepId in batch {
          edited := edited[m := edited[m].(state := OutcomeUnknown)];
        }
        m := m + 1;
      }
    }

    /** A tool's reply becomes durable.  Committing the same result twice is allowed. */
    method CommitToolAttempt(a: Identity, r: ToolResult) returns (ok: bool)
      requires Valid()
      modifies this
      ensures Valid() && present == old(present)
      ensures ok <==> old(present) && (CanSettle(old(journal), a)
                        || (a.stepId in old(journal) && old(journal)[a.stepId].Committed?
                            && old(journal)[a.stepId].id == a && old(journal)[a.stepId].result == r))
      ensures journal == if ok && CanSettle(old(journal), a) then CommitOne(old(journal), a, r) else old(journal)
    {
      if !present { return false; }
      var c := FindCheckpoint(a.stepId);
      if c >= 0 {
        ok := checkpoints[c].id == a && checkpoints[c].result == r;
        return;
      }
      var p := FindPending(a.stepId);
      if p < 0 || pending[p].id != a || pending[p].state != OutcomeUnknown { return false; }
      var entry := Checkpoint(a, r, pending[p].boundaries, pending[p].last);
      CommitKeeps(pending, checkpoints, journal, p, a, r);
      pending, checkpoints, journal :=
        pending[..p] + pending[p + 1..], checkpoints + [entry], CommitOne(journal, a, r);
      ok := true;
    }

    /** The only way back to not_started; the boundary that justified it is recorded. */
    method ResetOutcomeUnknownAtApprovalBoundary(a: Identity, b: Boundary) returns (ok: bool)
      requires Valid()
      modifies this
      ensures Valid() && present == old(present)
      ensures ok <==> old(present) && CanSettle(old(journal), a) && ValidBoundary(b)
      ensures journal == if ok then ResetOne(old(journal), a, b) else old(journal)
    {
      if !present { return false; }
      var p := FindPending(a.stepId);
      if p < 0 || pending[p].id != a || pending[p].state != OutcomeUnknown { return false; }
      if !ValidBoundary(b) { return false; }
      var edited := ResetList(pending, p, a, b);
      ResetKeeps(pending, checkpoints, journal, p, a, b, edited);
      pending, journal := edited, ResetOne(journal, a, b);
      ok := true;
    }

    /** None when the stored identity disagrees with the attempt (the program throws). */
    method ClassifyToolAttempt(a: Identity) returns (c: Option<Classification>)
      requires Valid()
      ensures c == if Matches(journal, a) then Some(ClassOf(journal, a.stepId)) else None
    {
      if !present { return Some(Missing); }
      var p := FindPending(a.stepId);
      if p >= 0 {
        return if pending[p].id == a then Some(Open(pending[p].state)) else None;
      }
      var k := FindCheckpoint(a.stepId);
      if k >= 0 {
        return if checkpoints[k].id == a then Some(Done(checkpoints[k].result)) else None;
      }
      return Some(Missing);
    }
  }

  function MarkIntent(p: Intent, batch: set<string>): Intent {
    if p.id.stepId in batch then p.(state := OutcomeUnknown) else p
  }

  lemma MarkIntents(pending: seq<Intent>, edited: seq<Intent>, j: Journal, attempts: seq<Identity>)
    requires IntentsIn(pending, j)
    requires |edited| == |pending|
    requires forall i :: 0 <= i < |pending| ==>
      edited[i] == MarkIntent(pending[i], set a | a in attempts :: a.stepId)
    ensures IntentsIn(edited, MarkAll(j, attempts))
  {
    var j' := MarkAll(j, attempts);
    forall s | s in j' && j'[s].Pending?
      ensures HasIntent(edited, s)
    {
      var i :| 0 <= i < |pending| && pending[i].id.stepId == s;
      assert edited[i].id.stepId == s;
    }
  }

  function StepsUpTo(attempts: seq<Identity>, n: nat): set<string>
    requires n <= |attempts|
  {
    set k | 0 <= k < n :: attempts[k].stepId
  }

  lemma SeenBefore(attempts: seq<Identity>, n: nat)
    requires n < |attempts|
    ensures attempts[n].stepId in StepsUpTo(attempts, n) ==> !DistinctSteps(attempts)
    ensures attempts[n].stepId !in StepsUpTo(attempts, n) ==> !HasStep(attempts[..n], attempts[n].stepId)
    ensures StepsUpTo(attempts, n + 1) == StepsUpTo(attempts, n) + {attempts[n].stepId}
  {
    if a :| a in attempts[..n] && a.stepId == attempts[n].stepId {
      var k :| 0 <= k < n && attempts[..n][k] == a;
      assert attempts[k].stepId == attempts[n].stepId;
    }
  }

  lemma ObservedNext(j: Journal, attempts: seq<Identity>, n: nat)
    requires n < |attempts|
    requires DistinctSteps(attempts[..n]) && !HasStep(attempts[..n], attempts[n].stepId)
    requires AllMatch(j, attempts[..n]) && Matches(j, attempts[n])
    requires AllNamed(attempts[..n]) && Named(attempts[n])
    ensures DistinctSteps(attempts[..n + 1]) && AllMatch(j, attempts[..n + 1]) && AllNamed(attempts[..n + 1])
    ensures forall s :: HasStep(attempts[..n + 1], s) <==> HasStep(attempts[..n], s) || s == attempts[n].stepId
    ensures ObserveAll(j, attempts[..n + 1]) == ObserveOne(ObserveAll(j, attempts[..n]), attempts[n])
  {
    var longer := attempts[..n + 1];
    assert longer[..n] == attempts[..n] && longer == attempts[..n] + [attempts[n]];
    assert attempts[n] in longer;
    forall i, k | 0 <= i < k < |longer|
      ensures longer[i].stepId != longer[k].stepId
    {
      assert longer[i] == attempts[..n][i];
      if k == n {
        assert attempts[..n][i] in attempts[..n];
      } else {
        assert longer[k] == attempts[..n][k];
      }
    }
  }

  ghost predicate ObservedSteps(j: Journal, done: seq<Identity>, view: Journal) {
    forall s :: s in view <==> s in j || HasStep(done, s)
  }

  /** The state of the observation loop after the attempts in `done`. */
  ghost predicate Observing(
      j: Journal, checkpoints: seq<Checkpoint>, done: seq<Identity>, edited: seq<Intent>, view: Journal) {
    && AllNamed(done) && DistinctSteps(done) && AllMatch(j, done) && view == ObserveAll(j, done)
    && OnFile(edited, checkpoints, view)
    && ObservedSteps(j, done, view)
  }

  lemma NewIntent(j: Journal, checkpoints: seq<Checkpoint>, edited: seq<Intent>, a: Identity)
    requires OnFile(edited, checkpoints, j) && a.stepId !in j && Named(a)
    ensures var j' := j[a.stepId := Pending(a, NotStarted, 0, None)];
            OnFile(edited + [Intent(a, NotStarted, 0, None)], checkpoints, j')
  {
    AppendIntent(edited, j, a);
  }

  lemma ObserveKnown(
      j: Journal, checkpoints: seq<Checkpoint>, attempts: seq<Identity>, n: nat, edited: seq<Intent>, view: Journal)
    requires n < |attempts| && Observing(j, checkpoints, attempts[..n], edited, view)
    requires !HasStep(attempts[..n], attempts[n].stepId) && Matches(j, attempts[n]) && attempts[n].stepId in j
    requires Named(attempts[n])
    ensures Observing(j, checkpoints, attempts[..n + 1], edited, view)
  {
    ObservedNext(j, attempts, n);
  }

  lemma ObserveNew(
      j: Journal, checkpoints: seq<Checkpoint>, attempts: seq<Identity>, n: nat, edited: seq<Intent>, view: Journal)
    requires n < |attempts| && Observing(j, checkpoints, attempts[..n], edited, view)
    requires !HasStep(attempts[..n], attempts[n].stepId) && attempts[n].stepId !in j && Named(attempts[n])
    ensures var a := attempts[n];
      Observing(j, checkpoints, attempts[..n + 1], edited + [Intent(a, NotStarted, 0, None)],
                view[a.stepId := Pending(a, NotStarted, 0, None)])
  {
    ObservedNext(j, attempts, n);
    NewIntent(view, checkpoints, edited, attempts[n]);
  }

  /** One round of the observation loop, which adds an intent for an unknown step. */
  lemma ObserveStep(j: Journal, checkpoints: seq<Checkpoint>, attempts: seq<Identity>, n: nat, edited: seq<Intent>,
                    view: Journal, longer: seq<Intent>, next: Journal)
    requires n < |attempts| && Observing(j, checkpoints, attempts[..n], edited, view)
    requires !HasStep(attempts[..n], attempts[n].stepId) && Matches(j, attempts[n]) && Named(attempts[n])
    requires var a := attempts[n];
      if a.stepId in j then longer == edited && next == view
      else && longer == edited + [Intent(a, NotStarted, 0, None)]
           && next == view[a.stepId := Pending(a, NotStarted, 0, None)]
    ensures Observing(j, checkpoints, attempts[..n + 1], longer, next)
  {
    if attempts[n].stepId in j {
      ObserveKnown(j, checkpoints, attempts, n, edited, view);
    } else {
      ObserveNew(j, checkpoints, attempts, n, edited, view);
    }
  }

  /** Replacing one intent by another under the same identity. */
  lemma EditIntent(pending: seq<Intent>, j: Journal, p: nat, edited: Intent)
    requires IntentsIn(pending, j) && p < |pending| && edited.id == pending[p].id
    ensures IntentsIn(pending[p := edited], j[edited.id.stepId := IntentEntry(edited)])
  {
    var after := pending[p := edited];
    assert forall i :: 0 <= i < |pending| ==> after[i].id == pending[i].id;
    forall s | s in j && j[s].Pending?
      ensures HasIntent(after, s)
    {
      var i :| 0 <= i < |pending| && pending[i].id.stepId == s;
      assert after[i].id.stepId == s;
    }
    assert after[p].id.stepId == edited.id.stepId;
  }

  lemma MarkKeeps(
      pending: seq<Intent>, edited: seq<Intent>, checkpoints: seq<Checkpoint>, j: Journal, attempts: seq<Identity>)
    requires OnFile(pending, checkpoints, j) && |edited| == |pending|
    requires forall i :: 0 <= i < |pending| ==>
      edited[i] == MarkIntent(pending[i], set a | a in attempts :: a.stepId)
    ensures OnFile(edited, checkpoints, MarkAll(j, attempts))
  {
    MarkIntents(pending, edited, j, attempts);
  }

  lemma CommitKeeps(
      pending: seq<Intent>, checkpoints: seq<Checkpoint>, j: Journal, p: nat, a: Identity, r: ToolResult)
    requires OnFile(pending, checkpoints, j) && p < |pending|
    requires pending[p].id == a && pending[p].state == OutcomeUnknown
    ensures CanSettle(j, a)
    ensures var entry := Checkpoint(a, r, pending[p].boundaries, pending[p].last);
      OnFile(pending[..p] + pending[p + 1..], checkpoints + [entry], CommitOne(j, a, r))
  {
    var entry := Checkpoint(a, r, pending[p].boundaries, pending[p].last);
    RemoveIntent(pending, j, p, CheckpointEntry(entry));
    AppendCheckpoint(checkpoints, j, entry);
  }

  /** The pending intents with number p reset. */
  function ResetList(pending: seq<Intent>, p: nat, a: Identity, b: Boundary): seq<Intent>
    requires p < |pending|
  {
    pending[p := Intent(a, NotStarted, pending[p].boundaries + 1, Some(b))]
  }

  lemma ResetKeeps(pending: seq<Intent>, checkpoints: seq<Checkpoint>, j: Journal, p: nat, a: Identity, b: Boundary,
                   edited: seq<Intent>)
    requires OnFile(pending, checkpoints, j) && p < |pending|
    requires pending[p].id == a && pending[p].state == OutcomeUnknown && ValidBoundary(b)
    ensures CanSettle(j, a)
    requires edited == ResetList(pending, p, a, b)
    ensures OnFile(edited, checkpoints, ResetOne(j, a, b))
  {
    EditIntent(pending, j, p, Intent(a, NotStarted, pending[p].boundaries + 1, Some(b)));
    assert EntryOk(j[a.stepId]);
    assert EntryOk(ResetOne(j, a, b)[a.stepId]);
  }

  lemma AppendIntent(pending: seq<Intent>, j: Journal, a: Identity)
    requires IntentsIn(pending, j)
    requires a.stepId !in j
    ensures IntentsIn(pending + [Intent(a, NotStarted, 0, None)], j[a.stepId := Pending(a, NotStarted, 0, None)])
  {
    var longer := pending + [Intent(a, NotStarted, 0, None)];
    var j' := j[a.stepId := Pending(a, NotStarted, 0, None)];
    assert longer[|pending|].id == a;
    forall s | s in j' && j'[s].Pending?
      ensures HasIntent(longer, s)
    {
      if s != a.stepId {
        var i :| 0 <= i < |pending| && pending[i].id.stepId == s;
        assert longer[i].id.stepId == s;
      }
    }
  }

  lemma RemoveIntent(pending: seq<Intent>, j: Journal, p: nat, e: Entry)
    requires IntentsIn(pending, j)
    requires p < |pending| && e.Committed?
    ensures IntentsIn(pending[..p] + pending[p + 1..], j[pending[p].id.stepId := e])
  {
    var shorter := pending[..p] + pending[p + 1..];
    var j' := j[pending[p].id.stepId := e];
    assert forall i :: 0 <= i < |shorter| ==> shorter[i] == pending[if i < p then i else i + 1];
    forall s | s in j' && j'[s].Pending?
      ensures HasIntent(shorter, s)
    {
      var i :| 0 <= i < |pending| && pending[i].id.stepId == s;
      assert shorter[if i < p then i else i - 1].id.stepId == s;
    }
  }

  lemma AppendCheckpoint(checkpoints: seq<Checkpoint>, j: Journal, c: Checkpoint)
    requires CheckpointsIn(checkpoints, j)
    requires c.id.stepId in j ==> j[c.id.stepId].Pending?
    ensures CheckpointsIn(checkpoints + [c], j[c.id.stepId := CheckpointEntry(c)])
  {
    var longer := checkpoints + [c];
    var j' := j[c.id.stepId := CheckpointEntry(c)];
    assert longer[|checkpoints|] == c;
    forall s | s in j' && j'[s].Committed?
      ensures HasCheckpoint(longer, s)
    {
      if s != c.id.stepId {
        var k :| 0 <= k < |checkpoints| && checkpoints[k].id.stepId == s;
        assert longer[k].id.stepId == s;
      }
    }
  }
}
