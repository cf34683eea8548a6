/** Detaching a model-authored value: from a graph of objects, possibly shared or cyclic, to the
    JSON tree it unfolds to. */
module Snapshot {
  import opened Common
  import opened Json

  type Ref = nat

  /** A finite number other than -0 is the text it prints as. */
  datatype Number = Finite(text: string) | NegativeZero | NonFinite

  /** Unsupported covers undefined, functions, symbols and big integers. */
  datatype Value =
    | NullValue
    | BoolValue(flag: bool)
    | StringValue(text: string)
    | NumberValue(number: Number)
    | Unsupported
    | Pointer(ref: Ref)

  /** An object's fields come in enumeration order, under distinct keys. */
  datatype Node = ArrayNode(items: seq<Value>) | ObjectNode(fields: seq<Field<Value>>)

  type Heap = map<Ref, Node>

  const CYCLE := "cyclic values are not valid JSON"
  const NOT_JSON := "the value is not valid JSON"

  // ---------------------------------------------------------------- the graph

  /** The order in which the fields of an object are visited and copied. */
  function Visited(fields: seq<Field<Value>>): seq<Field<Value>> { SortFields(fields) }

  function Children(node: Node): seq<Value> {
    match node
    case ArrayNode(items) => items
    case ObjectNode(fields) => ValuesOf(Visited(fields))
  }

  function ValuesOf(fields: seq<Field<Value>>): (r: seq<Value>)
    ensures |r| == |fields|
  {
    seq(|fields|, i requires 0 <= i < |fields| => fields[i].value)
  }

  function Rebuild(node: Node, trees: seq<Json>): Json
    requires |trees| == |Children(node)|
  {
    match node
    case ArrayNode(_) => Arr(trees)
    case ObjectNode(fields) => Obj(Labelled(Visited(fields), trees))
  }

  function Labelled(fields: seq<Field<Value>>, trees: seq<Json>): (r: seq<Field<Json>>)
    requires |trees| == |fields|
    ensures |r| == |trees|
  {
    seq(|trees|, i requires 0 <= i < |trees| => Field(fields[i].key, trees[i]))
  }

  predicate InHeap(heap: Heap, v: Value) { v.Pointer? ==> v.ref in heap }

  ghost predicate Closed(heap: Heap) {
    forall r, v :: r in heap && v in Children(heap[r]) ==> InHeap(heap, v)
  }

  predicate BadLeaf(v: Value) { v.Unsupported? || (v.NumberValue? && v.number.NonFinite?) }

  function LeafTree(v: Value): Json
    requires !v.Pointer? && !BadLeaf(v)
  {
    match v
    case NullValue => Json.Null
    case BoolValue(b) => Json.Bool(b)
    case StringValue(s) => Json.Str(s)
    case NumberValue(n) => Json.Num(if n.NegativeZero? then "0" else n.text)
  }

  predicate IsChild(heap: Heap, r: Ref, v: Value) { r in heap && v in Children(heap[r]) }

  /** The references met on the way from v down to p's last one. */
  ghost predicate IsPath(heap: Heap, v: Value, p: seq<Ref>)
    decreases |p|
  {
    p != [] && v == Pointer(p[0]) && v.ref in heap
    && (|p| > 1 ==> IsChild(heap, p[0], Pointer(p[1])) && IsPath(heap, Pointer(p[1]), p[1..]))
  }

  ghost predicate ReachesCycle(heap: Heap, v: Value) {
    exists p :: IsPath(heap, v, p) && p[|p| - 1] in p[..|p| - 1]
  }

  ghost predicate ReachesBadLeaf(heap: Heap, v: Value) {
    BadLeaf(v) || exists p, c :: IsPath(heap, v, p) && IsChild(heap, p[|p| - 1], c) && BadLeaf(c)
  }

  // ---------------------------------------------------------------- the tree unfolding

  /** What a leaf is in JSON: a finite number as it prints, -0 as 0, and nothing for other values. */
  predicate LeafUnfolds(v: Value, t: Json) {
    match v
    case NullValue => t.Null?
    case BoolValue(b) => t.Bool? && t.flag == b
    case StringValue(s) => t.Str? && t.text == s
    case NumberValue(Finite(text)) => t.Num? && t.text == text
    case NumberValue(NegativeZero) => t.Num? && t.text == "0"
    case _ => false
  }

  lemma LeafTreeUnfolds(v: Value, t: Json)
    requires !v.Pointer?
    ensures LeafUnfolds(v, t) <==> !BadLeaf(v) && t == LeafTree(v)
  {
  }

  /** t is the finite tree v unfolds to; -0 unfolds to 0, and fields are in key order. */
  ghost predicate Unfolds(heap: Heap, v: Value, t: Json)
    decreases t
  {
    if !v.Pointer? then LeafUnfolds(v, t)
    else
      && v.ref in heap
      && match heap[v.ref]
         case ArrayNode(items) =>
           t.Arr? && |t.items| == |items| && forall i :: 0 <= i < |items| ==> Unfolds(heap, items[i], t.items[i])
         case ObjectNode(fields) =>
           && t.Obj? && |t.fields| == |Visited(fields)|
           && forall i :: 0 <= i < |t.fields| ==>
                t.fields[i].key == Visited(fields)[i].key && Unfolds(heap, Visited(fields)[i].value, t.fields[i].value)
  }

  // ---------------------------------------------------------------- what the recursion computes

  function Snap(heap: Heap, v: Value, active: set<Ref>): Result<Json>
    decreases |heap.Keys - active|, 0
  {
    if !v.Pointer? then if BadLeaf(v) then Err(NOT_JSON) else Ok(LeafTree(v))
    else if v.ref in active then Err(CYCLE)
    else if v.ref !in heap then Err(NOT_JSON)
    else
      assert |heap.Keys - (active + {v.ref})| < |heap.Keys - active| by { Narrower(heap, active, v.ref); }
      match SnapAll(heap, Children(heap[v.ref]), active + {v.ref})
      case Err(e) => Err(e)
      case Ok(trees) => Ok(Rebuild(heap[v.ref], trees))
  }

  function SnapAll(heap: Heap, values: seq<Value>, active: set<Ref>): (r: Result<seq<Json>>)
    ensures r.Ok? ==> |r.value| == |values|
    decreases |heap.Keys - active|, |values| + 1
  {
    if values == [] then Ok([])
    else
      match Snap(heap, values[0], active)
      case Err(e) => Err(e)
      case Ok(t) =>
        match SnapAll(heap, values[1..], active)
        case Err(e) => Err(e)
        case Ok(rest) => Ok([t] + rest)
  }

  lemma Narrower(heap: Heap, active: set<Ref>, r: Ref)
    requires r in heap && r !in active
    ensures |heap.Keys - (active + {r})| < |heap.Keys - active|
  {
    assert heap.Keys - active == (heap.Keys - (active + {r})) + {r};
  }

  // ---------------------------------------------------------------- when it succeeds, and with what

  /** The loop succeeds with every element's own copy, or fails as one of them does. */
  lemma {:induction false} SnapAllAt(heap: Heap, values: seq<Value>, active: set<Ref>)
    ensures match SnapAll(heap, values, active)
            case Ok(trees) => forall i :: 0 <= i < |values| ==> Snap(heap, values[i], active) == Ok(trees[i])
            case Err(e) => exists v :: v in values && Snap(heap, v, active) == Err(e)
  {
    if values != [] {
      SnapAllAt(heap, values[1..], active);
      assert forall i :: 0 < i < |values| ==> values[i] == values[1..][i - 1];
      assert values[0] in values && forall v :: v in values[1..] ==> v in values;
    }
  }

  /** A failed copy has run into an object it is still inside of, or into a bad leaf. */
  ghost predicate Fails(heap: Heap, v: Value, active: set<Ref>, p: seq<Ref>, e: string) {
    if p == [] then BadLeaf(v) && e == NOT_JSON
    else
      && IsPath(heap, v, p)
      && if e == CYCLE then p[|p| - 1] in active || p[|p| - 1] in p[..|p| - 1]
         else e == NOT_JSON && exists c :: IsChild(heap, p[|p| - 1], c) && BadLeaf(c)
  }

  lemma PathFrom(heap: Heap, r: Ref, c: Value, p: seq<Ref>, active: set<Ref>, e: string) returns (q: seq<Ref>)
    requires IsChild(heap, r, c) && r !in active && Fails(heap, c, active + {r}, p, e)
    ensures Fails(heap, Pointer(r), active, q, e)
  {
    q := [r] + p;
    if p != [] {
      assert q[1..] == p && q[|q| - 1] == p[|p| - 1];
      assert q[..|q| - 1] == [r] + p[..|p| - 1];
    }
  }

  lemma {:induction false} FailureFound(heap: Heap, v: Value, active: set<Ref>) returns (p: seq<Ref>)
    requires Closed(heap) && InHeap(heap, v) && Snap(heap, v, active).Err?
    ensures Fails(heap, v, active, p, Snap(heap, v, active).message)
    decreases |heap.Keys - active|
  {
    if !v.Pointer? {
      p := [];
    } else if v.ref in active {
      p := [v.ref];
    } else {
      var inner := active + {v.ref};
      Narrower(heap, active, v.ref);
      SnapAllAt(heap, Children(heap[v.ref]), inner);
      var c :| c in Children(heap[v.ref]) && Snap(heap, c, inner) == Err(Snap(heap, v, active).message);
      var rest := FailureFound(heap, c, inner);
      p := PathFrom(heap, v.ref, c, rest, active, Snap(heap, v, active).message);
    }
  }

  lemma ChildStops(heap: Heap, r: Ref, c: Value, active: set<Ref>)
    requires r !in active && IsChild(heap, r, c) && Snap(heap, c, active + {r}).Err?
    ensures Snap(heap, Pointer(r), active).Err?
  {
    SnapAllAt(heap, Children(heap[r]), active + {r});
  }

  lemma RestFails(heap: Heap, v: Value, active: set<Ref>, p: seq<Ref>, e: string)
    requires |p| > 1 && Fails(heap, v, active, p, e)
    ensures Fails(heap, Pointer(p[1]), active + {p[0]}, p[1..], e)
  {
    var rest := p[1..];
    assert rest[|rest| - 1] == p[|p| - 1];
    assert p[..|p| - 1] == [p[0]] + rest[..|rest| - 1];
  }

  lemma {:induction false} FailureStops(heap: Heap, v: Value, active: set<Ref>, p: seq<Ref>, e: string)
    requires Fails(heap, v, active, p, e)
    ensures Snap(heap, v, active).Err?
    decreases |p|
  {
    if p != [] && v.ref !in active {
      if |p| == 1 {
        var c :| IsChild(heap, p[0], c) && BadLeaf(c);
        ChildStops(heap, p[0], c, active);
      } else {
        RestFails(heap, v, active, p, e);
        FailureStops(heap, Pointer(p[1]), active + {v.ref}, p[1..], e);
        ChildStops(heap, p[0], Pointer(p[1]), active);
      }
    }
  }

  /** Copying succeeds exactly when neither a cycle nor a bad leaf is reachable. */
  lemma SnapDecides(heap: Heap, v: Value)
    requires Closed(heap) && InHeap(heap, v)
    ensures Snap(heap, v, {}).Ok? <==> !ReachesCycle(heap, v) && !ReachesBadLeaf(heap, v)
    ensures Snap(heap, v, {}) == Err(CYCLE) ==> ReachesCycle(heap, v)
  {
    if Snap(heap, v, {}).Err? {
      var p := FailureFound(heap, v, {});
    }
    if p :| IsPath(heap, v, p) && p[|p| - 1] in p[..|p| - 1] { FailureStops(heap, v, {}, p, CYCLE); }
    if ReachesBadLeaf(heap, v) {
      if BadLeaf(v) {
        FailureStops(heap, v, {}, [], NOT_JSON);
      } else {
        var p, c :| IsPath(heap, v, p) && IsChild(heap, p[|p| - 1], c) && BadLeaf(c);
        FailureStops(heap, v, {}, p, NOT_JSON);
      }
    }
  }

  lemma {:induction false} SnapUnfolds(heap: Heap, v: Value, active: set<Ref>)
    requires Snap(heap, v, active).Ok?
    ensures Unfolds(heap, v, Snap(heap, v, active).value)
    decreases |heap.Keys - active|
  {
    if v.Pointer? {
      var inner, children := active + {v.ref}, Children(heap[v.ref]);
      Narrower(heap, active, v.ref);
      SnapAllAt(heap, children, inner);
      var trees := SnapAll(heap, children, inner).value;
      forall i | 0 <= i < |children|
        ensures Unfolds(heap, children[i], trees[i])
      {
        assert children[i] in children;
        SnapUnfolds(heap, children[i], inner);
      }
    }
  }

  /** A value unfolds to at most one tree. */
  lemma {:induction false} UnfoldsOnce(heap: Heap, v: Value, t: Json, u: Json)
    requires Unfolds(heap, v, t) && Unfolds(heap, v, u)
    ensures t == u
    decreases t
  {
    if v.Pointer? {
      match heap[v.ref] {
        case ArrayNode(items) =>
          forall i | 0 <= i < |items|
            ensures t.items[i] == u.items[i]
          {
            UnfoldsOnce(heap, items[i], t.items[i], u.items[i]);
          }
          assert t.items == u.items;
        case ObjectNode(fields) =>
          forall i | 0 <= i < |t.fields|
            ensures t.fields[i] == u.fields[i]
          {
            UnfoldsOnce(heap, Visited(fields)[i].value, t.fields[i].value, u.fields[i].value);
          }
          assert t.fields == u.fields;
      }
    }
  }

  // ---------------------------------------------------------------- the copying itself

  /** The set of objects on the current path, shared by all calls. */
  class ActiveSet {
    var refs: set<Ref>

    constructor ()
      ensures refs == {}
    {
      refs := {};
    }
  }

  /** snapshotJsonValue: it puts back every object it takes into the active set. */
  method SnapshotJsonValue(heap: Heap, v: Value, active: ActiveSet) returns (r: Result<Json>)
    requires Closed(heap) && InHeap(heap, v)
    modifies active
    ensures active.refs == old(active.refs)
    ensures r == Snap(heap, v, active.refs)
    decreases |heap.Keys - active.refs|, 0
  {
    if !v.Pointer? { return if BadLeaf(v) then Err(NOT_JSON) else Ok(LeafTree(v)); }
    if v.ref in active.refs { return Err(CYCLE); }
    ghost var before := active.refs;
    Narrower(heap, active.refs, v.ref);
    active.refs := active.refs + {v.ref};
    var trees := SnapshotChildren(heap, Children(heap[v.ref]), active);
    active.refs := active.refs - {v.ref};
    assert active.refs == before;
    match trees {
      case Err(e) => return Err(e);
      case Ok(ts) => return Ok(Rebuild(heap[v.ref], ts));
    }
  }

  /** The loop over the elements of an array or the values of an object. */
  method SnapshotChildren(heap: Heap, values: seq<Value>, active: ActiveSet) returns (r: Result<seq<Json>>)
    requires Closed(heap) && forall v :: v in values ==> InHeap(heap, v)
    modifies active
    ensures active.refs == old(active.refs)
    ensures r == SnapAll(heap, values, active.refs)
    decreases |heap.Keys - active.refs|, 1
  {
    ghost var inner := active.refs;
    var trees := [];
    assert values[0..] == values;
    AfterNone(SnapAll(heap, values, inner));
    for n := 0 to |values|
      invariant active.refs == inner
      invariant SnapAll(heap, values, inner) == WithTrees(trees, SnapAll(heap, values[n..], inner))
    {
      assert values[n..][0] == values[n] && values[n..][1..] == values[n + 1..];
      var t := SnapshotJsonValue(heap, values[n], active);
      if t.Err? { return Err(t.message); }
      if SnapAll(heap, values[n + 1..], inner).Ok? {
        ConcatAssoc(trees, [t.value], SnapAll(heap, values[n + 1..], inner).value);
      }
      trees := trees + [t.value];
    }
    assert values[|values|..] == [] && trees + [] == trees;
    return Ok(trees);
  }

  function WithTrees(trees: seq<Json>, rest: Result<seq<Json>>): Result<seq<Json>> {
    match rest
    case Ok(more) => Ok(trees + more)
    case Err(e) => Err(e)
  }

  lemma AfterNone(rest: Result<seq<Json>>)
    ensures WithTrees([], rest) == rest
  {
    if rest.Ok? { assert [] + rest.value == rest.value; }
  }

  /** snapshotJsonExecutionValue: an acyclic value without bad leaves becomes the tree it unfolds
      to, and everything else is rejected. */
  method SnapshotJsonExecutionValue(heap: Heap, v: Value) returns (r: Result<Json>)
    requires Closed(heap) && InHeap(heap, v)
    ensures r.Ok? <==> !ReachesCycle(heap, v) && !ReachesBadLeaf(heap, v)
    ensures r == Err(CYCLE) ==> ReachesCycle(heap, v)
    ensures r.Ok? ==> Unfolds(heap, v, r.value) && forall t :: Unfolds(heap, v, t) ==> t == r.value
  {
    var active := new ActiveSet();
    r := SnapshotJsonValue(heap, v, active);
    SnapDecides(heap, v);
    if r.Ok? {
      SnapUnfolds(heap, v, {});
      forall t | Unfolds(heap, v, t)
        ensures t == r.value
      {
        UnfoldsOnce(heap, v, t, r.value);
      }
    }
  }

  /** The tree of an object has its fields, every one, by ascending key. */
  lemma UnfoldedObject(heap: Heap, v: Value, t: Json)
    requires v.Pointer? && v.ref in heap && heap[v.ref].ObjectNode? && DistinctKeys(heap[v.ref].fields)
    requires Unfolds(heap, v, t)
    ensures var fields := heap[v.ref].fields;
      && t.Obj? && |t.fields| == |fields| && Ascending(t.fields)
      && (forall f :: f in fields ==> exists i :: 0 <= i < |t.fields| && IsCopy(heap, f, t.fields[i]))
      && (forall i :: 0 <= i < |t.fields| ==> exists f :: f in fields && IsCopy(heap, f, t.fields[i]))
  {
    var fields := heap[v.ref].fields;
    var sorted := Visited(fields);
    SortKeeps(fields);
    SortAscending(fields);
    assert forall i :: 0 <= i < |sorted| ==> IsCopy(heap, sorted[i], t.fields[i]) && sorted[i] in sorted;
    forall f | f in fields
      ensures exists i :: 0 <= i < |t.fields| && IsCopy(heap, f, t.fields[i])
    {
      assert f in sorted;
      var i :| 0 <= i < |sorted| && sorted[i] == f;
      assert IsCopy(heap, f, t.fields[i]);
    }
  }

  /** The same key, with what the value unfolds to. */
  ghost predicate IsCopy(heap: Heap, f: Field<Value>, g: Field<Json>) {
    g.key == f.key && Unfolds(heap, f.value, g.value)
  }
}
