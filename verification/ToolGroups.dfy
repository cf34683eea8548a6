/** Splitting the tool uses of one assistant turn into batches. */
module ToolGroups {
  import opened Common

  datatype ToolUse = ToolUse(id: string, name: string, input: string)

  /** The permission view: which tools may be called, and which of them are read-only and batch-safe. */
  datatype Policy = Policy(allowed: string -> bool, batchSafe: string -> bool)

  function SafePrefix(uses: seq<ToolUse>, p: Policy): (n: nat)
    ensures n <= |uses|
    ensures forall i :: 0 <= i < n ==> p.batchSafe(uses[i].name)
    ensures n < |uses| ==> !p.batchSafe(uses[n].name)
  {
    if uses == [] || !p.batchSafe(uses[0].name) then 0 else 1 + SafePrefix(uses[1..], p)
  }

  /** The longest batch-safe runs, and every other use on its own. */
  function Batches(uses: seq<ToolUse>, p: Policy): seq<seq<ToolUse>>
    decreases |uses|
  {
    if uses == [] then []
    else if !p.batchSafe(uses[0].name) then [[uses[0]]] + Batches(uses[1..], p)
    else var n := SafePrefix(uses, p); [uses[..n]] + Batches(uses[n..], p)
  }

  predicate AllSafe(uses: seq<ToolUse>, p: Policy) { forall u :: u in uses ==> p.batchSafe(u.name) }

  /** An order-keeping partition into batches that cannot be made coarser. */
  ghost predicate Canonical(groups: seq<seq<ToolUse>>, uses: seq<ToolUse>, p: Policy) {
    && Flatten(groups) == uses
    && (forall g :: 0 <= g < |groups| ==>
          groups[g] != [] && (AllSafe(groups[g], p) || (|groups[g]| == 1 && !p.batchSafe(groups[g][0].name))))
    && (forall g :: 0 < g < |groups| ==> !(AllSafe(groups[g - 1], p) && AllSafe(groups[g], p)))
  }

  lemma {:induction false} SafePrefixLength(uses: seq<ToolUse>, p: Policy, n: nat)
    requires n <= |uses| && AllSafe(uses[..n], p)
    requires n < |uses| ==> !p.batchSafe(uses[n].name)
    ensures SafePrefix(uses, p) == n
  {
    assert forall i :: 0 <= i < n ==> uses[i] == uses[..n][i] && uses[..n][i] in uses[..n];
    var k := SafePrefix(uses, p);
  }

  lemma {:induction false} BatchesFlatten(uses: seq<ToolUse>, p: Policy)
    ensures Flatten(Batches(uses, p)) == uses
    decreases |uses|
  {
    if uses != [] {
      if !p.batchSafe(uses[0].name) {
        BatchesFlatten(uses[1..], p);
      } else {
        var n := SafePrefix(uses, p);
        BatchesFlatten(uses[n..], p);
        assert uses == uses[..n] + uses[n..];
      }
    }
  }

  lemma {:induction false} BatchesCanonical(uses: seq<ToolUse>, p: Policy)
    ensures Canonical(Batches(uses, p), uses, p)
    decreases |uses|
  {
    BatchesFlatten(uses, p);
    if uses != [] {
      var n := if p.batchSafe(uses[0].name) then SafePrefix(uses, p) else 1;
      var rest := Batches(uses[n..], p);
      BatchesCanonical(uses[n..], p);
      assert Batches(uses, p) == [uses[..n]] + rest;
      if rest != [] && p.batchSafe(uses[0].name) {
        assert uses[n..][0] == uses[n] && rest[0] == [uses[n]];
      }
    }
  }

  lemma CanonicalTail(groups: seq<seq<ToolUse>>, uses: seq<ToolUse>, p: Policy)
    requires Canonical(groups, uses, p) && groups != []
    ensures |groups[0]| <= |uses| && uses[..|groups[0]|] == groups[0]
    ensures Canonical(groups[1..], uses[|groups[0]|..], p)
  {
    var first, rest := groups[0], groups[1..];
    assert uses == first + Flatten(rest);
    assert uses[|first|..] == Flatten(rest);
    assert forall g :: 0 <= g < |rest| ==> rest[g] == groups[g + 1];
    forall g | 0 < g < |rest|
      ensures !(AllSafe(rest[g - 1], p) && AllSafe(rest[g], p))
    {
      assert rest[g - 1] == groups[g] && rest[g] == groups[g + 1];
    }
  }

  /** A canonical first batch is the first of the longest-run batches. */
  lemma FirstBatch(groups: seq<seq<ToolUse>>, uses: seq<ToolUse>, p: Policy)
    requires Canonical(groups, uses, p) && groups != [] && AllSafe(groups[0], p)
    ensures |groups[0]| <= |uses| && p.batchSafe(uses[0].name) && SafePrefix(uses, p) == |groups[0]|
  {
    CanonicalTail(groups, uses, p);
    var first, rest := groups[0], groups[1..];
    assert uses[0] == first[0] && first[0] in first;
    if rest != [] {
      assert rest[0] == groups[1] && !AllSafe(groups[1], p);
      assert uses[|first|] == Flatten(rest)[0] == rest[0][0];
    }
    SafePrefixLength(uses, p, |first|);
  }

  /** The three conditions leave no choice: they hold of exactly one partition. */
  lemma {:induction false} CanonicalIsUnique(groups: seq<seq<ToolUse>>, uses: seq<ToolUse>, p: Policy)
    requires Canonical(groups, uses, p)
    ensures groups == Batches(uses, p)
    decreases |groups|
  {
    if groups != [] {
      CanonicalTail(groups, uses, p);
      CanonicalIsUnique(groups[1..], uses[|groups[0]|..], p);
      assert groups == [groups[0]] + groups[1..];
      if AllSafe(groups[0], p) {
        FirstBatch(groups, uses, p);
      } else {
        assert groups[0] == [uses[0]];
      }
    }
  }

  /** Batches past a closed safe run, and past one unsafe use. */
  lemma SkipSafe(batch: seq<ToolUse>, tail: seq<ToolUse>, p: Policy)
    requires AllSafe(batch, p) && batch != [] && (tail == [] || !p.batchSafe(tail[0].name))
    ensures Batches(batch + tail, p) == [batch] + Batches(tail, p)
  {
    var all := batch + tail;
    assert all[..|batch|] == batch && all[|batch|..] == tail;
    assert all[0] == batch[0] && batch[0] in batch;
    SafePrefixLength(all, p, |batch|);
  }

  lemma SkipUnsafe(u: ToolUse, rest: seq<ToolUse>, p: Policy)
    requires !p.batchSafe(u.name)
    ensures Batches([u] + rest, p) == [[u]] + Batches(rest, p)
  {
    assert ([u] + rest)[0] == u && ([u] + rest)[1..] == rest;
  }

  lemma AddSafe(batch: seq<ToolUse>, u: ToolUse, rest: seq<ToolUse>, p: Policy)
    requires AllSafe(batch, p) && !p.batchSafe(u.name)
    ensures Batches(batch + ([u] + rest), p) == (if batch == [] then [] else [batch]) + [[u]] + Batches(rest, p)
  {
    SkipUnsafe(u, rest, p);
    if batch == [] {
      assert batch + ([u] + rest) == [u] + rest;
    } else {
      SkipSafe(batch, [u] + rest, p);
      ConcatAssoc([batch], [[u]], Batches(rest, p));
    }
  }

  lemma WholeSafe(batch: seq<ToolUse>, p: Policy)
    requires AllSafe(batch, p) && batch != []
    ensures Batches(batch, p) == [batch]
  {
    SkipSafe(batch, [], p);
    assert batch + [] == batch;
  }

  /** The batches still to come once `groups` are closed and `batch` is open. */
  function Outlook(groups: seq<seq<ToolUse>>, batch: seq<ToolUse>, rest: seq<ToolUse>, p: Policy): seq<seq<ToolUse>> {
    groups + Batches(batch + rest, p)
  }

  lemma Advance(groups: seq<seq<ToolUse>>, batch: seq<ToolUse>, uses: seq<ToolUse>, n: nat, p: Policy)
    requires n < |uses| && AllSafe(batch, p)
    ensures p.batchSafe(uses[n].name) ==>
      Outlook(groups, batch + [uses[n]], uses[n + 1..], p) == Outlook(groups, batch, uses[n..], p)
    ensures !p.batchSafe(uses[n].name) ==>
      Outlook(groups + (if batch == [] then [] else [batch]) + [[uses[n]]], [], uses[n + 1..], p)
      == Outlook(groups, batch, uses[n..], p)
  {
    var u, rest := uses[n], uses[n + 1..];
    assert uses[n..] == [u] + rest;
    ConcatAssoc(batch, [u], rest);
    if !p.batchSafe(u.name) {
      AddSafe(batch, u, rest, p);
      assert [] + rest == rest;
      var closed := if batch == [] then [] else [batch];
      ConcatAssoc(groups, closed + [[u]], Batches(rest, p));
      ConcatAssoc(groups, closed, [[u]]);
    }
  }

  /** A use with a name and an id, that the permission view allows. */
  predicate Permitted(u: ToolUse, p: Policy) { !Blank(u.id) && !Blank(u.name) && p.allowed(u.name) }

  /** Every use is copied first, which refuses blank ids and names, and authorized then. */
  method Authorized(uses: seq<ToolUse>, p: Policy) returns (ok: bool)
    ensures ok <==> forall u :: u in uses ==> Permitted(u, p)
  {
    for k := 0 to |uses|
      invariant forall i :: 0 <= i < k ==> !Blank(uses[i].id) && !Blank(uses[i].name)
    {
      if Blank(uses[k].id) || Blank(uses[k].name) {
        assert !Permitted(uses[k], p);
        return false;
      }
    }
    for k := 0 to |uses|
      invariant forall i :: 0 <= i < k ==> Permitted(uses[i], p)
    {
      if !p.allowed(uses[k].name) {
        assert !Permitted(uses[k], p);
        return false;
      }
    }
    ok := true;
  }

  /** Authorize every use, then batch them.  A refused use anywhere yields no batch at all. */
  method GroupToolUsesForExecution(uses: seq<ToolUse>, p: Policy) returns (r: Result<seq<seq<ToolUse>>>)
    ensures r.Ok? <==> forall u :: u in uses ==> Permitted(u, p)
    ensures r.Ok? ==> r.value == Batches(uses, p)
  {
    var ok := Authorized(uses, p);
    if !ok { return Err("Tool call denied"); }
    var groups: seq<seq<ToolUse>>, batch: seq<ToolUse> := [], [];
    assert batch + uses[0..] == uses;
    for n := 0 to |uses|
      invariant AllSafe(batch, p)
      invariant Batches(uses, p) == Outlook(groups, batch, uses[n..], p)
    {
      Advance(groups, batch, uses, n, p);
      if p.batchSafe(uses[n].name) {
        batch := batch + [uses[n]];
      } else {
        if batch != [] {
          groups, batch := groups + [batch], [];
        }
        groups := groups + [[uses[n]]];
      }
    }
    assert batch + uses[|uses|..] == batch;
    if batch != [] {
      WholeSafe(batch, p);
      groups := groups + [batch];
    }
    return Ok(groups);
  }
}
