/** When inlining references comes to an end, for any corpus and any schema.

    Entering a target of another file is a step from place to place.  The recursion succeeds exactly
    when no place it can reach holds a failing reference or lies on a loop, and it runs forever exactly
    when it comes to a loop before it comes to a failing reference. */
module ResolveLoops {
  import opened Common
  import opened Json
  import opened ResolveRefs
  import opened Directories

  /** What is resolved in which file; a missing target is undefined. */
  datatype Place = Place(target: Option<Json>, file: string)

  // ---------------------------------------------------------------- what a place enters

  /** The targets in other files that resolving a value enters, in order, and whether it then meets a
      reference that cannot be resolved. */
  datatype Sweep = Sweep(places: seq<Place>, fails: bool)

  function Then(a: Sweep, b: Sweep): Sweep {
    if a.fails then a else Sweep(a.places + b.places, b.fails)
  }

  function SweepOf(c: Corpus, v: Json, file: string): Sweep
    requires Indexed(c)
  {
    match v
    case Arr(items) => SweepOfItems(c, items, file)
    case Obj(fields) => SweepOfFields(c, fields, file)
    case _ => Sweep([], false)
  }

  function SweepOfItems(c: Corpus, items: seq<Json>, file: string): Sweep
    requires Indexed(c)
  {
    if items == [] then Sweep([], false)
    else Then(SweepOf(c, items[0], file), SweepOfItems(c, items[1..], file))
  }

  /** A reference to another file ends the object. */
  function SweepOfFields(c: Corpus, fields: seq<Field<Json>>, file: string): Sweep
    requires Indexed(c)
  {
    if fields == [] then Sweep([], false)
    else
      var f, rest := fields[0], fields[1..];
      if f.key == "$id" || (IsRef(f) && Local(f.value.text)) then SweepOfFields(c, rest, file)
      else if IsRef(f) then
        match TargetOf(c, f.value.text, file)
        case Self(_) => SweepOfFields(c, rest, file)
        case Other(there, target) => Sweep([Place(target, there)], false)
        case _ => Sweep([], true)
      else Then(SweepOf(c, f.value, file), SweepOfFields(c, rest, file))
  }

  function Next(c: Corpus, p: Place): Sweep
    requires Indexed(c)
  {
    if p.target.None? then Sweep([], false) else SweepOf(c, p.target.value, p.file)
  }

  // ---------------------------------------------------------------- what the recursion makes of them

  datatype Kind = Succeeds | Fails | Deeper

  function KindOf(o: Outcome): Kind {
    match o
    case Done(_) => Succeeds
    case Failed(_) => Fails
    case TooDeep => Deeper
  }

  function At(c: Corpus, fuel: nat, p: Place): Kind
    requires Indexed(c)
  {
    KindOf(Enter(c, fuel, p.target, p.file))
  }

  function Step(c: Corpus, fuel: nat, p: Place): Kind
    requires Indexed(c)
  {
    if fuel == 0 then Deeper else At(c, fuel - 1, p)
  }

  /** The first place that does not succeed decides. */
  function Scan(c: Corpus, fuel: nat, places: seq<Place>, fails: bool): Kind
    requires Indexed(c)
  {
    if places == [] then if fails then Fails else Succeeds
    else if Step(c, fuel, places[0]) == Succeeds then Scan(c, fuel, places[1..], fails)
    else Step(c, fuel, places[0])
  }

  function ScanAll(c: Corpus, fuel: nat, s: Sweep): Kind
    requires Indexed(c)
  {
    Scan(c, fuel, s.places, s.fails)
  }

  lemma {:induction false} ScanAppend(c: Corpus, fuel: nat, a: seq<Place>, b: seq<Place>, fails: bool)
    requires Indexed(c)
    ensures Scan(c, fuel, a + b, fails)
            == if Scan(c, fuel, a, false) == Succeeds then Scan(c, fuel, b, fails) else Scan(c, fuel, a, false)
  {
    if a == [] {
      assert a + b == b;
    } else {
      assert (a + b)[1..] == a[1..] + b;
      ScanAppend(c, fuel, a[1..], b, fails);
    }
  }

  lemma ScanThen(c: Corpus, fuel: nat, a: Sweep, b: Sweep)
    requires Indexed(c)
    ensures ScanAll(c, fuel, Then(a, b))
            == if ScanAll(c, fuel, a) == Succeeds then ScanAll(c, fuel, b) else ScanAll(c, fuel, a)
  {
    ScanFails(c, fuel, a.places);
    ScanAppend(c, fuel, a.places, b.places, b.fails);
  }

  lemma {:induction false} ScanFails(c: Corpus, fuel: nat, places: seq<Place>)
    requires Indexed(c)
    ensures Scan(c, fuel, places, true) != Succeeds
  {
    if places != [] { ScanFails(c, fuel, places[1..]); }
  }

  /** The recursion does what its sweep says. */
  lemma {:induction false} ResolveScans(c: Corpus, fuel: nat, v: Json, file: string)
    requires Indexed(c)
    ensures KindOf(Resolve(c, fuel, v, file)) == ScanAll(c, fuel, SweepOf(c, v, file))
    decreases v
  {
    match v {
      case Arr(items) => ItemsScan(c, fuel, items, file, []);
      case Obj(fields) => FieldsScan(c, fuel, fields, file, []);
      case _ =>
    }
  }

  lemma {:induction false} ItemsScan(c: Corpus, fuel: nat, items: seq<Json>, file: string, done: seq<Json>)
    requires Indexed(c)
    ensures KindOf(ResolveItems(c, fuel, items, file, done)) == ScanAll(c, fuel, SweepOfItems(c, items, file))
    decreases items
  {
    if items != [] {
      ResolveScans(c, fuel, items[0], file);
      ScanThen(c, fuel, SweepOf(c, items[0], file), SweepOfItems(c, items[1..], file));
      var r := Resolve(c, fuel, items[0], file);
      if r.Done? {
        ItemsScan(c, fuel, items[1..], file, done + [if r.value.Some? then r.value.value else Json.Null]);
      }
    }
  }

  lemma {:induction false} FieldsScan(
      c: Corpus, fuel: nat, fields: seq<Field<Json>>, file: string, done: seq<Field<Json>>)
    requires Indexed(c)
    ensures KindOf(ResolveFields(c, fuel, fields, file, done)) == ScanAll(c, fuel, SweepOfFields(c, fields, file))
    decreases fields, 1
  {
    if fields != [] {
      var f, rest := fields[0], fields[1..];
      if f.key == "$id" {
        FieldsScan(c, fuel, rest, file, done);
      } else if IsRef(f) {
        RefScans(c, fuel, fields, file, done);
      } else {
        ResolveScans(c, fuel, f.value, file);
        ScanThen(c, fuel, SweepOf(c, f.value, file), SweepOfFields(c, rest, file));
        var r := Resolve(c, fuel, f.value, file);
        if r.Done? {
          FieldsScan(c, fuel, rest, file, if r.value.Some? then done + [Field(f.key, r.value.value)] else done);
        }
      }
    }
  }

  lemma {:induction false} RefScans(
      c: Corpus, fuel: nat, fields: seq<Field<Json>>, file: string, done: seq<Field<Json>>)
    requires Indexed(c) && fields != [] && IsRef(fields[0])
    ensures KindOf(ResolveFields(c, fuel, fields, file, done)) == ScanAll(c, fuel, SweepOfFields(c, fields, file))
    decreases fields, 0
  {
    var f, rest := fields[0], fields[1..];
    if Local(f.value.text) {
      FieldsScan(c, fuel, rest, file, done + [f]);
    } else {
      var t := TargetOf(c, f.value.text, file);
      if t.Self? {
        FieldsScan(c, fuel, rest, file, done + [Field("$ref", Str(t.ref))]);
      } else if t.Other? {
        var p := Place(t.target, t.file);
        assert [p][1..] == [] && Scan(c, fuel, [p], false) == Step(c, fuel, p);
      }
    }
  }

  lemma PlaceScans(c: Corpus, fuel: nat, p: Place)
    requires Indexed(c)
    ensures At(c, fuel, p) == ScanAll(c, fuel, Next(c, p))
  {
    if p.target.Some? { ResolveScans(c, fuel, p.target.value, p.file); }
  }

  lemma KindStays(c: Corpus, fuel: nat, more: nat, p: Place)
    requires Indexed(c) && fuel <= more && At(c, fuel, p) != Deeper
    ensures At(c, more, p) == At(c, fuel, p)
  {
    if p.target.Some? { FuelIsMonotone(c, fuel, more, p.target.value, p.file); }
  }

  /** The first place that does not succeed; if there is none, the failing reference decides. */
  lemma {:induction false} FirstUnsuccessful(c: Corpus, fuel: nat, places: seq<Place>, fails: bool) returns (k: nat)
    requires Indexed(c)
    ensures k <= |places| && forall i :: 0 <= i < k ==> Step(c, fuel, places[i]) == Succeeds
    ensures k < |places| ==>
      Step(c, fuel, places[k]) != Succeeds && Scan(c, fuel, places, fails) == Step(c, fuel, places[k])
    ensures k == |places| ==> Scan(c, fuel, places, fails) == if fails then Fails else Succeeds
  {
    if places == [] || Step(c, fuel, places[0]) != Succeeds {
      k := 0;
    } else {
      k := FirstUnsuccessful(c, fuel, places[1..], fails);
      assert forall i :: 0 < i < |places| ==> places[i] == places[1..][i - 1];
      k := k + 1;
    }
  }

  // ---------------------------------------------------------------- walks

  ghost predicate Leads(c: Corpus, p: Place, q: Place)
    requires Indexed(c)
  {
    q in Next(c, p).places
  }

  ghost predicate Walk(c: Corpus, p: Place, w: seq<Place>)
    requires Indexed(c)
  {
    w != [] && w[0] == p && forall i :: 0 <= i < |w| - 1 ==> Leads(c, w[i], w[i + 1])
  }

  ghost predicate Repeats(w: seq<Place>) { exists i, k :: 0 <= i < k < |w| && w[i] == w[k] }

  /** A reference that cannot be resolved is within reach. */
  ghost predicate ReachesFailure(c: Corpus, p: Place)
    requires Indexed(c)
  {
    exists w :: Walk(c, p, w) && Next(c, w[|w| - 1]).fails
  }

  /** A walk from here comes to a place twice. */
  ghost predicate ReachesLoop(c: Corpus, p: Place)
    requires Indexed(c)
  {
    exists w :: Walk(c, p, w) && Repeats(w)
  }

  ghost predicate Sound(c: Corpus, p: Place)
    requires Indexed(c)
  {
    !ReachesFailure(c, p) && !ReachesLoop(c, p)
  }

  /** The recursion comes to an end, with a result or an error. */
  ghost predicate Halts(c: Corpus, v: Json, file: string)
    requires Indexed(c)
  {
    exists fuel: nat :: Resolve(c, fuel, v, file) != TooDeep
  }

  /** It comes to an end without an error. */
  ghost predicate Inlines(c: Corpus, v: Json, file: string)
    requires Indexed(c)
  {
    exists fuel: nat :: Resolve(c, fuel, v, file).Done?
  }

  lemma HaltsWithin(c: Corpus, fuel: nat, v: Json, file: string)
    requires Indexed(c) && Resolve(c, fuel, v, file) != TooDeep
    ensures Halts(c, v, file)
  {
  }

  lemma Prepend(c: Corpus, p: Place, q: Place, w: seq<Place>)
    requires Indexed(c) && Leads(c, p, q) && Walk(c, q, w)
    ensures Walk(c, p, [p] + w) && |[p] + w| == |w| + 1 && ([p] + w)[|w|] == w[|w| - 1]
  {
    var longer := [p] + w;
    forall i | 0 <= i < |longer| - 1
      ensures Leads(c, longer[i], longer[i + 1])
    {
      if i > 0 { assert Leads(c, w[i - 1], w[i]); }
    }
  }

  // ---------------------------------------------------------------- finitely many places

  /** A value and everything a pointer into it can lead to. */
  function Values(v: Json): set<Json> { {v} + if v.Obj? then FieldValues(v.fields) else {} }

  function FieldValues(fields: seq<Field<Json>>): set<Json> {
    if fields == [] then {} else Values(fields[0].value) + FieldValues(fields[1..])
  }

  lemma {:induction false} FieldHasValues(fields: seq<Field<Json>>, f: Field<Json>)
    requires f in fields
    ensures Values(f.value) <= FieldValues(fields)
  {
    if fields[0] != f { FieldHasValues(fields[1..], f); }
  }

  lemma {:induction false} PointerToValue(v: Json, parts: seq<string>)
    requires Navigate(Some(v), parts).Ok? && Navigate(Some(v), parts).value.Some?
    ensures Navigate(Some(v), parts).value.value in Values(v)
    decreases |parts|
  {
    if parts != [] {
      var next := Lookup(v.fields, parts[0]);
      NothingBelow(next, parts[1..]);
      FieldHasValues(v.fields, Field(parts[0], next.value));
      PointerToValue(next.value, parts[1..]);
    }
  }

  /** The places that references of the corpus can lead to. */
  function Targets(c: Corpus): set<Place> {
    (set file, v | file in c.files && v in Values(c.files[file]) :: Place(Some(v), file))
    + (set file | file in c.files :: Place(None, file))
  }

  lemma TargetsHold(c: Corpus, ref: string, file: string)
    requires Indexed(c) && TargetOf(c, ref, file).Other?
    ensures Place(TargetOf(c, ref, file).target, TargetOf(c, ref, file).file) in Targets(c)
  {
    var t := TargetOf(c, ref, file);
    if t.target.Some? {
      PointerToValue(c.files[t.file], if Fragment(ref) == [] then [] else Parts(Fragment(ref)));
    }
  }

  ghost predicate Within(c: Corpus, places: seq<Place>) { forall p :: p in places ==> p in Targets(c) }

  lemma {:induction false} SweepWithin(c: Corpus, v: Json, file: string)
    requires Indexed(c)
    ensures Within(c, SweepOf(c, v, file).places)
    decreases v
  {
    match v {
      case Arr(items) => ItemsWithin(c, items, file);
      case Obj(fields) => FieldsWithin(c, fields, file);
      case _ =>
    }
  }

  lemma {:induction false} ItemsWithin(c: Corpus, items: seq<Json>, file: string)
    requires Indexed(c)
    ensures Within(c, SweepOfItems(c, items, file).places)
    decreases items
  {
    if items != [] {
      SweepWithin(c, items[0], file);
      ItemsWithin(c, items[1..], file);
    }
  }

  lemma {:induction false} FieldsWithin(c: Corpus, fields: seq<Field<Json>>, file: string)
    requires Indexed(c)
    ensures Within(c, SweepOfFields(c, fields, file).places)
    decreases fields
  {
    if fields != [] {
      var f := fields[0];
      FieldsWithin(c, fields[1..], file);
      if IsRef(f) {
        if TargetOf(c, f.value.text, file).Other? { TargetsHold(c, f.value.text, file); }
      } else {
        SweepWithin(c, f.value, file);
      }
    }
  }

  /** The places of a walk, its first one aside, are targets. */
  function Reach(c: Corpus, p: Place): set<Place> { {p} + Targets(c) }

  lemma WalkWithin(c: Corpus, p: Place, w: seq<Place>)
    requires Indexed(c) && Walk(c, p, w)
    ensures forall i :: 0 <= i < |w| ==> w[i] in Reach(c, p)
  {
    forall i | 0 < i < |w|
      ensures w[i] in Targets(c)
    {
      assert Leads(c, w[i - 1], w[i - 1 + 1]);
      if w[i - 1].target.Some? { SweepWithin(c, w[i - 1].target.value, w[i - 1].file); }
    }
  }

  /** More places than there are: one comes twice. */
  lemma {:induction false} Pigeonhole(w: seq<Place>, all: set<Place>)
    requires (forall i :: 0 <= i < |w| ==> w[i] in all) && |w| > |all|
    ensures Repeats(w)
    decreases |w|
  {
    var n := |w| - 1;
    if i :| 0 <= i < n && w[i] == w[n] {
    } else {
      Pigeonhole(w[..n], all - {w[n]});
      var i, k :| 0 <= i < k < n && w[..n][i] == w[..n][k];
      assert w[i] == w[k];
    }
  }

  // ---------------------------------------------------------------- when it succeeds

  /** Success goes along every walk, which is no longer than the fuel. */
  lemma {:induction false} SuccessAlong(c: Corpus, fuel: nat, p: Place, w: seq<Place>, i: nat)
    requires Indexed(c) && Walk(c, p, w) && At(c, fuel, p) == Succeeds && i < |w|
    ensures i <= fuel && At(c, fuel - i, w[i]) == Succeeds
  {
    if i > 0 {
      SuccessAlong(c, fuel, p, w, i - 1);
      var q, left := w[i - 1], fuel - (i - 1);
      assert Leads(c, q, w[i - 1 + 1]);
      PlaceScans(c, left, q);
      var k := FirstUnsuccessful(c, left, Next(c, q).places, Next(c, q).fails);
      var n :| 0 <= n < |Next(c, q).places| && Next(c, q).places[n] == w[i];
      assert Step(c, left, w[i]) == Succeeds;
    }
  }

  lemma {:induction false} NoLoopWhenSuccessful(c: Corpus, fuel: nat, p: Place, w: seq<Place>)
    requires Indexed(c) && Walk(c, p, w) && |w| > 1 && w[|w| - 1] == p
    ensures At(c, fuel, p) != Succeeds
  {
    if At(c, fuel, p) == Succeeds {
      SuccessAlong(c, fuel, p, w, |w| - 1);
      NoLoopWhenSuccessful(c, fuel - (|w| - 1), p, w);
    }
  }

  lemma SuccessIsSound(c: Corpus, fuel: nat, p: Place)
    requires Indexed(c) && At(c, fuel, p) == Succeeds
    ensures Sound(c, p)
  {
    forall w | Walk(c, p, w)
      ensures !Next(c, w[|w| - 1]).fails && !Repeats(w)
    {
      SuccessAlong(c, fuel, p, w, |w| - 1);
      var left := fuel - (|w| - 1);
      PlaceScans(c, left, w[|w| - 1]);
      if Next(c, w[|w| - 1]).fails { ScanFails(c, left, Next(c, w[|w| - 1]).places); }
      if i, k :| 0 <= i < k < |w| && w[i] == w[k] {
        SuccessAlong(c, fuel, p, w, i);
        Section(c, p, w, i, k);
        NoLoopWhenSuccessful(c, fuel - i, w[i], w[i..k + 1]);
      }
    }
  }

  lemma Section(c: Corpus, p: Place, w: seq<Place>, i: nat, k: nat)
    requires Indexed(c) && Walk(c, p, w) && i < k < |w|
    ensures Walk(c, w[i], w[i..k + 1]) && w[i..k + 1][k - i] == w[k]
  {
    var part := w[i..k + 1];
    forall n | 0 <= n < |part| - 1
      ensures Leads(c, part[n], part[n + 1])
    {
      assert Leads(c, w[i + n], w[i + n + 1]);
    }
  }

  /** A place that does not succeed has a walk to a failing reference, or one longer than the fuel. */
  lemma {:induction false} UnsuccessfulWalk(c: Corpus, fuel: nat, p: Place) returns (w: seq<Place>)
    requires Indexed(c) && At(c, fuel, p) != Succeeds
    ensures Walk(c, p, w) && (Next(c, w[|w| - 1]).fails || |w| == fuel + 2)
  {
    PlaceScans(c, fuel, p);
    var places := Next(c, p).places;
    var k := FirstUnsuccessful(c, fuel, places, Next(c, p).fails);
    if k == |places| {
      w := [p];
    } else {
      var q := places[k];
      w := [q];
      if fuel > 0 { w := UnsuccessfulWalk(c, fuel - 1, q); }
      Prepend(c, p, q, w);
      w := [p] + w;
    }
  }

  lemma SoundSucceeds(c: Corpus, p: Place)
    requires Indexed(c) && Sound(c, p)
    ensures At(c, |Reach(c, p)|, p) == Succeeds
  {
    if At(c, |Reach(c, p)|, p) != Succeeds {
      var w := UnsuccessfulWalk(c, |Reach(c, p)|, p);
      if !Next(c, w[|w| - 1]).fails {
        WalkWithin(c, p, w);
        Pigeonhole(w, Reach(c, p));
      }
    }
  }

  /** Inlining succeeds if and only if no failing reference and no loop is within reach. */
  lemma ResolveSucceeds(c: Corpus, v: Json, file: string)
    requires Indexed(c)
    ensures Inlines(c, v, file)
            <==> !ReachesFailure(c, Place(Some(v), file)) && !ReachesLoop(c, Place(Some(v), file))
  {
    var p := Place(Some(v), file);
    forall fuel: nat | Resolve(c, fuel, v, file).Done?
      ensures Sound(c, p)
    {
      assert At(c, fuel, p) == Succeeds;
      SuccessIsSound(c, fuel, p);
    }
    if Sound(c, p) {
      SoundSucceeds(c, p);
      var enough := |Reach(c, p)|;
      assert At(c, enough, p) == Succeeds;
      assert Resolve(c, enough, v, file).Done?;
    }
  }

  // ---------------------------------------------------------------- when it never ends

  /** Place number k of those p enters is come to: all before it succeed. */
  ghost predicate ComesTo(c: Corpus, p: Place, k: nat)
    requires Indexed(c)
  {
    k < |Next(c, p).places| && forall i :: 0 <= i < k ==> Sound(c, Next(c, p).places[i])
  }

  ghost predicate LeadsFirst(c: Corpus, p: Place, q: Place)
    requires Indexed(c)
  {
    exists k: nat :: ComesTo(c, p, k) && Next(c, p).places[k] == q
  }

  ghost predicate FirstWalk(c: Corpus, p: Place, w: seq<Place>)
    requires Indexed(c)
  {
    w != [] && w[0] == p && forall i :: 0 <= i < |w| - 1 ==> LeadsFirst(c, w[i], w[i + 1])
  }

  /** The recursion comes to a place twice, with nothing before it that fails or loops. */
  ghost predicate LoopsFirst(c: Corpus, p: Place)
    requires Indexed(c)
  {
    exists w :: FirstWalk(c, p, w) && Repeats(w)
  }

  lemma SameKind(c: Corpus, fuel: nat, other: nat, p: Place)
    requires Indexed(c) && At(c, fuel, p) != Deeper && At(c, other, p) != Deeper
    ensures At(c, fuel, p) == At(c, other, p)
  {
    if fuel <= other { KindStays(c, fuel, other, p); } else { KindStays(c, other, fuel, p); }
  }

  lemma SoundNeverFails(c: Corpus, fuel: nat, p: Place)
    requires Indexed(c) && Sound(c, p)
    ensures Step(c, fuel, p) != Fails
  {
    if fuel > 0 {
      SoundSucceeds(c, p);
      if At(c, fuel - 1, p) == Fails { SameKind(c, fuel - 1, |Reach(c, p)|, p); }
    }
  }

  lemma DeeperBack(c: Corpus, fuel: nat, p: Place, q: Place)
    requires Indexed(c) && LeadsFirst(c, p, q) && Step(c, fuel, q) == Deeper
    ensures At(c, fuel, p) == Deeper
  {
    var places := Next(c, p).places;
    var k: nat :| ComesTo(c, p, k) && places[k] == q;
    PlaceScans(c, fuel, p);
    var n := FirstUnsuccessful(c, fuel, places, Next(c, p).fails);
    if n < k { SoundNeverFails(c, fuel, places[n]); }
  }

  lemma {:induction false} LoopIsDeep(c: Corpus, fuel: nat, w: seq<Place>, i: nat, k: nat, n: nat)
    requires Indexed(c) && w != [] && FirstWalk(c, w[0], w) && i < k < |w| && w[i] == w[k] && n < k
    ensures At(c, fuel, w[n]) == Deeper
    decreases fuel
  {
    if fuel > 0 {
      LoopIsDeep(c, fuel - 1, w, i, k, if n + 1 < k then n + 1 else i);
    }
    assert LeadsFirst(c, w[n], w[n + 1]);
    DeeperBack(c, fuel, w[n], w[n + 1]);
  }

  /** A place that needs more fuel has a walk longer than the fuel. */
  lemma {:induction false} DeeperWalk(c: Corpus, fuel: nat, p: Place) returns (w: seq<Place>)
    requires Indexed(c) && At(c, fuel, p) == Deeper
    ensures FirstWalk(c, p, w) && |w| == fuel + 2
  {
    PlaceScans(c, fuel, p);
    var places := Next(c, p).places;
    var k := FirstUnsuccessful(c, fuel, places, Next(c, p).fails);
    var q := places[k];
    forall i | 0 <= i < k
      ensures Sound(c, places[i])
    {
      SuccessIsSound(c, fuel - 1, places[i]);
    }
    assert ComesTo(c, p, k);
    w := [q];
    if fuel > 0 { w := DeeperWalk(c, fuel - 1, q); }
    PrependFirst(c, p, q, w);
    w := [p] + w;
  }

  lemma PrependFirst(c: Corpus, p: Place, q: Place, w: seq<Place>)
    requires Indexed(c) && LeadsFirst(c, p, q) && FirstWalk(c, q, w)
    ensures FirstWalk(c, p, [p] + w)
  {
    var longer := [p] + w;
    forall i | 0 <= i < |longer| - 1
      ensures LeadsFirst(c, longer[i], longer[i + 1])
    {
      if i > 0 { assert LeadsFirst(c, w[i - 1], w[i - 1 + 1]); }
    }
  }

  lemma FirstWalkIsWalk(c: Corpus, p: Place, w: seq<Place>)
    requires Indexed(c) && FirstWalk(c, p, w)
    ensures Walk(c, p, w)
  {
    forall i | 0 <= i < |w| - 1
      ensures Leads(c, w[i], w[i + 1])
    {
      assert LeadsFirst(c, w[i], w[i + 1]);
    }
  }

  lemma DeeperLoops(c: Corpus, p: Place)
    requires Indexed(c) && At(c, |Reach(c, p)|, p) == Deeper
    ensures LoopsFirst(c, p)
  {
    var w := DeeperWalk(c, |Reach(c, p)|, p);
    FirstWalkIsWalk(c, p, w);
    WalkWithin(c, p, w);
    Pigeonhole(w, Reach(c, p));
  }

  /** Inlining ends, with a result or an error, if and only if it does not come to a loop first; one file
      entry per place that can be reached is then enough. */
  lemma ResolveHalts(c: Corpus, v: Json, file: string)
    requires Indexed(c)
    ensures Halts(c, v, file) <==> !LoopsFirst(c, Place(Some(v), file))
    ensures !LoopsFirst(c, Place(Some(v), file)) ==>
      Resolve(c, |Reach(c, Place(Some(v), file))|, v, file) != TooDeep
  {
    var p := Place(Some(v), file);
    var enough := |Reach(c, p)|;
    if Resolve(c, enough, v, file) == TooDeep {
      assert At(c, enough, p) == Deeper;
      DeeperLoops(c, p);
    } else {
      HaltsWithin(c, enough, v, file);
    }
    forall fuel: nat | LoopsFirst(c, p)
      ensures Resolve(c, fuel, v, file) == TooDeep
    {
      LoopingIsDeep(c, fuel, p);
      assert At(c, fuel, p) == Deeper;
    }
  }

  lemma LoopingIsDeep(c: Corpus, fuel: nat, p: Place)
    requires Indexed(c) && LoopsFirst(c, p)
    ensures At(c, fuel, p) == Deeper
  {
    var w :| FirstWalk(c, p, w) && Repeats(w);
    var i, k :| 0 <= i < k < |w| && w[i] == w[k];
    LoopIsDeep(c, fuel, w, i, k, 0);
  }

  /** Where every reference within reach finds its target, what matters is whether a loop is. */
  lemma ResolveHaltsOnTargets(c: Corpus, v: Json, file: string)
    requires Indexed(c) && !ReachesFailure(c, Place(Some(v), file))
    ensures Halts(c, v, file) <==> !ReachesLoop(c, Place(Some(v), file))
  {
    var p := Place(Some(v), file);
    ResolveSucceeds(c, v, file);
    forall fuel: nat | Resolve(c, fuel, v, file) != TooDeep
      ensures Inlines(c, v, file)
    {
      if At(c, fuel, p) == Fails { FailureReached(c, fuel, p); }
      assert Resolve(c, fuel, v, file).Done?;
    }
    if fuel: nat :| Resolve(c, fuel, v, file).Done? { HaltsWithin(c, fuel, v, file); }
  }

  lemma {:induction false} FailureReached(c: Corpus, fuel: nat, p: Place)
    requires Indexed(c) && At(c, fuel, p) == Fails
    ensures ReachesFailure(c, p)
  {
    PlaceScans(c, fuel, p);
    var places := Next(c, p).places;
    var k := FirstUnsuccessful(c, fuel, places, Next(c, p).fails);
    if k == |places| {
      assert Walk(c, p, [p]) && Next(c, [p][|[p]| - 1]).fails;
    } else {
      FailureReached(c, fuel - 1, places[k]);
      var w :| Walk(c, places[k], w) && Next(c, w[|w| - 1]).fails;
      Prepend(c, p, places[k], w);
      var longer := [p] + w;
      assert Walk(c, p, longer) && Next(c, longer[|longer| - 1]).fails;
    }
  }

  // ---------------------------------------------------------------- two files that refer to each other

  /** a and b declare their own ids and refer to each other. */
  function Referring(id: string, other: string): Json { Obj([Field("$id", Str(id)), Field("$ref", Str(other))]) }

  lemma ReferringId(id: string, other: string)
    ensures IdOf(Referring(id, other)) == id
  {
  }

  /** Files fa and fb declare the ids a and b, and each is nothing but a reference to the other. */
  ghost predicate ReferToEachOther(c: Corpus, fa: string, fb: string, a: string, b: string) {
    && fa != fb && Plain(a) && Plain(b) && a in c.ids && b in c.ids && c.ids[a] == fa && c.ids[b] == fb
    && fa in c.files && fb in c.files && c.files[fa] == Referring(a, b) && c.files[fb] == Referring(b, a)
  }

  lemma ReferringEnters(c: Corpus, fa: string, fb: string, a: string, b: string)
    requires Indexed(c) && ReferToEachOther(c, fa, fb, a, b)
    ensures LeadsFirst(c, Place(Some(c.files[fa]), fa), Place(Some(c.files[fb]), fb))
  {
    var p, q, fields := Place(Some(c.files[fa]), fa), Place(Some(c.files[fb]), fb), Referring(a, b).fields;
    PlainReference(b);
    assert TargetOf(c, b, fa) == Other(fb, Some(c.files[fb]));
    assert fields[0].key == "$id" && fields[1..] == [fields[1]] && |fields[1].key| == 4 && |"$id"| == 3;
    var f := fields[1];
    assert IsRef(f) && f.key != "$id" && [f][0] == f;
    assert SweepOfFields(c, fields, fa) == SweepOfFields(c, [f], fa) == Sweep([q], false);
    assert ComesTo(c, p, 0) && Next(c, p).places[0] == q;
  }

  /** Two files that are nothing but references to each other are never resolved, however far the
      recursion goes: it is back at its start after two steps. */
  lemma CycleNeverEnds(c: Corpus, fuel: nat, fa: string, fb: string, a: string, b: string)
    requires Indexed(c) && ReferToEachOther(c, fa, fb, a, b)
    ensures LoopsFirst(c, Place(Some(c.files[fa]), fa)) && Resolve(c, fuel, c.files[fa], fa) == TooDeep
  {
    var p, q := Place(Some(c.files[fa]), fa), Place(Some(c.files[fb]), fb);
    ReferringEnters(c, fa, fb, a, b);
    ReferringEnters(c, fb, fa, b, a);
    var w := [p, q, p];
    assert FirstWalk(c, p, w) && w[0] == w[2];
    LoopingIsDeep(c, fuel, p);
    assert At(c, fuel, p) == Deeper;
  }

  /** There is a directory of such files. */
  lemma CycleExists() returns (c: Corpus)
    ensures Built(c, Directory(Referring("a", "b"), Referring("b", "a"))) && Indexed(c)
    ensures ReferToEachOther(c, "a.schema.json", "b.schema.json", "a", "b")
  {
    var a, b := Referring("a", "b"), Referring("b", "a");
    var ids := map["a" := "a.schema.json", "b" := "b.schema.json"];
    ReferringId("a", "b");
    ReferringId("b", "a");
    forall id
      ensures FileWithId(Directory(a, b), id).Some? <==> id == "a" || id == "b"
      ensures id in ids ==> FileWithId(Directory(a, b), id) == Some(ids[id])
    {
      DirectoryIds(a, b, id);
    }
    DirectoryBuilt(a, b, ids);
    c := CorpusOf(a, b, ids);
    assert "a.schema.json"[0] != "b.schema.json"[0];
  }

  /** A file that takes the entry "t" of another one, and has one itself. */
  function Taking(id: string, ref: string): Json {
    Obj([Field("$id", Str(id)), Field("p", Obj([Field("$ref", Str(ref))])), Field("t", Str("x"))])
  }

  const TAKING_IDS: map<string, string> := map["a" := "a.schema.json", "b" := "b.schema.json"]

  function Mutual(): Corpus { CorpusOf(Taking("a", "b#/t"), Taking("b", "a#/t"), TAKING_IDS) }

  lemma TakingEntry(id: string, ref: string)
    ensures IdOf(Taking(id, ref)) == id && Lookup(Taking(id, ref).fields, "t") == Some(Str("x"))
  {
    var fields := Taking(id, ref).fields;
    assert fields[1..][0] == fields[1] && fields[1..][1..][0] == fields[2];
  }

  lemma MutualBuilt()
    ensures Built(Mutual(), Directory(Taking("a", "b#/t"), Taking("b", "a#/t"))) && Indexed(Mutual())
  {
    var a, b := Taking("a", "b#/t"), Taking("b", "a#/t");
    TakingEntry("a", "b#/t");
    TakingEntry("b", "a#/t");
    forall id
      ensures FileWithId(Directory(a, b), id).Some? <==> id == "a" || id == "b"
      ensures id in TAKING_IDS ==> FileWithId(Directory(a, b), id) == Some(TAKING_IDS[id])
    {
      DirectoryIds(a, b, id);
    }
    DirectoryBuilt(a, b, TAKING_IDS);
  }

  lemma TakingTarget(c: Corpus, ref: string, id: string, other: string, file: string, there: string)
    requires Indexed(c) && |id| == 1 && id[0] != '#' && ref == id + "#/t" && there != file
    requires id in c.ids && c.ids[id] == there && c.files[there] == Taking(id, other)
    ensures !Local(ref) && TargetOf(c, ref, file) == Other(there, Some(Str("x")))
  {
    ReferenceToT(ref, id);
    TakingEntry(id, other);
  }

  /** Files that refer to each other need not be on a loop: here the graph between files has a cycle,
      whatever the ranks, and one file entry is enough. */
  lemma MutualFilesEnd()
    ensures Built(Mutual(), Directory(Taking("a", "b#/t"), Taking("b", "a#/t"))) && Indexed(Mutual())
    ensures forall rank :: !Acyclic(Mutual(), rank)
    ensures Resolve(Mutual(), 1, Taking("a", "b#/t"), "a.schema.json")
            == Done(Some(Obj([Field("p", Str("x")), Field("t", Str("x"))])))
  {
    MutualBuilt();
    MutualTargets();
    forall rank
      ensures !Acyclic(Mutual(), rank)
    {
      if Acyclic(Mutual(), rank) {
        TakingRanks(Mutual(), "a.schema.json", "a", "b#/t", "b.schema.json", rank);
        TakingRanks(Mutual(), "b.schema.json", "b", "a#/t", "a.schema.json", rank);
      }
    }
    TakingResolves(Mutual(), "a", "b#/t", "a.schema.json", "b.schema.json");
  }

  lemma MutualTargets()
    requires Indexed(Mutual())
    ensures !Local("b#/t") && TargetOf(Mutual(), "b#/t", "a.schema.json") == Other("b.schema.json", Some(Str("x")))
    ensures !Local("a#/t") && TargetOf(Mutual(), "a#/t", "b.schema.json") == Other("a.schema.json", Some(Str("x")))
  {
    assert "a.schema.json"[0] != "b.schema.json"[0];
    TakingTarget(Mutual(), "b#/t", "b", "a#/t", "a.schema.json", "b.schema.json");
    TakingTarget(Mutual(), "a#/t", "a", "b#/t", "b.schema.json", "a.schema.json");
  }

  lemma TakingRanks(c: Corpus, file: string, id: string, ref: string, there: string, rank: map<string, nat>)
    requires Indexed(c) && Acyclic(c, rank) && file in c.files && c.files[file] == Taking(id, ref)
    requires !Local(ref) && TargetOf(c, ref, file) == Other(there, Some(Str("x")))
    ensures file in rank && there in rank && rank[there] < rank[file]
  {
    var fields := Taking(id, ref).fields;
    assert Grounded(c, rank, fields[1].value, file);
    assert FieldGrounded(c, rank, fields[1].value.fields[0], file);
  }

  lemma TakingResolves(c: Corpus, id: string, ref: string, file: string, there: string)
    requires Indexed(c) && !Local(ref) && TargetOf(c, ref, file) == Other(there, Some(Str("x")))
    ensures Resolve(c, 1, Taking(id, ref), file) == Done(Some(Obj([Field("p", Str("x")), Field("t", Str("x"))])))
  {
    var fields := Taking(id, ref).fields;
    var p, q, t := Field("p", Str("x")), fields[1], fields[2];
    assert fields[1..] == [q, t] && fields[1..][1..] == [t] && [t][1..] == [];
    assert |fields[0].key| == 3 && |"$ref"| == 4 && |q.key| == 1 && |t.key| == 1;
    OneReference(c, 1, ref, file, there, Str("x"));
    assert Resolve(c, 1, q.value, file) == Done(Some(Str("x")));
    assert Resolve(c, 1, t.value, file) == Done(Some(Str("x"))) && [p] + [t] == [p, t];
    assert ResolveFields(c, 1, [t], file, [p]) == ResolveFields(c, 1, [], file, [p, t]) == Done(Some(Obj([p, t])));
    assert [q, t][1..] == [t] && [] + [p] == [p];
    assert ResolveFields(c, 1, [q, t], file, []) == ResolveFields(c, 1, [t], file, [p]);
    assert ResolveFields(c, 1, fields, file, []) == ResolveFields(c, 1, [q, t], file, []);
  }
}
