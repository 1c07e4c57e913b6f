/** `_terminal_attention_record_ids`, and what it means that every attention result of
    a layer reaches the output projection once. */
module Delivery {
  import opened Records
  import opened Relinking
  import opened Sequences

  // ---- terminals ----

  function Unreduced(contexts: seq<int>, consumed: seq<int>): (r: seq<int>)
    ensures forall x :: x in r <==> x in contexts && x !in consumed
    decreases |contexts|
  {
    if contexts == [] then []
    else
      var n := |contexts| - 1;
      assert contexts == contexts[..n] + [contexts[n]];
      Unreduced(contexts[..n], consumed) + if contexts[n] in consumed then [] else [contexts[n]]
  }

  function TerminalIds(rs: seq<Record>): seq<int> {
    Reductions(rs) + Unreduced(Contexts(rs), Consumed(rs))
  }

  /** The set of context ids that reductions read. */
  method ReducedIds(rs: seq<Record>) returns (reduced: set<int>)
    ensures forall x :: x in reduced <==> x in Consumed(rs)
  {
    reduced := {};
    for i := 0 to |rs|
      invariant forall x :: x in reduced <==> x in Consumed(rs[..i])
    {
      assert rs[..i + 1][..i] == rs[..i];
      if rs[i].kind.PIMElementwise? && rs[i].op.ContextReduction? {
        reduced := reduced + set d | d in rs[i].deps;
      }
    }
    assert rs[..|rs|] == rs;
  }

  method ReductionIds(rs: seq<Record>) returns (ids: seq<int>)
    ensures ids == Reductions(rs)
  {
    ids := [];
    for i := 0 to |rs|
      invariant ids == Reductions(rs[..i])
    {
      assert rs[..i + 1][..i] == rs[..i];
      if rs[i].kind.PIMElementwise? && rs[i].op.ContextReduction? {
        ids := ids + [rs[i].id];
      }
    }
    assert rs[..|rs|] == rs;
  }

  method UnreducedIds(rs: seq<Record>, reduced: set<int>, ghost consumed: seq<int>) returns (ids: seq<int>)
    requires forall x :: x in reduced <==> x in consumed
    ensures ids == Unreduced(Contexts(rs), consumed)
  {
    ids := [];
    for i := 0 to |rs|
      invariant ids == Unreduced(Contexts(rs[..i]), consumed)
    {
      assert rs[..i + 1][..i] == rs[..i];
      if rs[i].kind.AttentionContext? {
        assert Contexts(rs[..i + 1]) == Contexts(rs[..i]) + [rs[i].id];
        UnreducedSnoc(Contexts(rs[..i]), rs[i].id, consumed);
        if rs[i].id !in reduced {
          ids := ids + [rs[i].id];
        }
      } else {
        assert Contexts(rs[..i + 1]) == Contexts(rs[..i]);
      }
    }
    assert rs[..|rs|] == rs;
  }

  lemma UnreducedSnoc(contexts: seq<int>, c: int, consumed: seq<int>)
    ensures Unreduced(contexts + [c], consumed) == Unreduced(contexts, consumed) + if c in consumed then [] else [c]
  {
    assert (contexts + [c])[..|contexts|] == contexts;
  }

  /** `_terminal_attention_record_ids`. */
  method FindTerminalIds(rs: seq<Record>) returns (terminals: seq<int>)
    ensures terminals == TerminalIds(rs)
  {
    var reduced := ReducedIds(rs);
    terminals := ReductionIds(rs);
    var open := UnreducedIds(rs, reduced, Consumed(rs));
    terminals := terminals + open;
  }

  // ---- conservation of attention results ----

  /** Ids the output projections of `rs` depend on. */
  function Collected(rs: seq<Record>): seq<int> { FlatMap(OutputDeps, rs) }

  /** Every context and reduction is a dependency of exactly one reduction or output
      projection; reductions feed output projections only, and an output projection
      depends on nothing else. */
  ghost predicate Delivered(rs: seq<Record>) {
    && multiset(Consumed(rs)) + multiset(Collected(rs)) == multiset(Contexts(rs)) + multiset(Reductions(rs))
    && multiset(Consumed(rs)) <= multiset(Contexts(rs))
    && multiset(Reductions(rs)) <= multiset(Collected(rs))
  }

  predicate NoRepeats(s: seq<int>) {
    forall i, j :: 0 <= i < j < |s| ==> s[i] != s[j]
  }

  lemma {:induction false} NoRepeatsCount(s: seq<int>, x: int)
    requires NoRepeats(s)
    ensures multiset(s)[x] <= 1
    decreases |s|
  {
    if s != [] {
      var n := |s| - 1;
      NoRepeatsCount(s[..n], x);
      assert s == s[..n] + [s[n]];
      assert multiset(s) == multiset(s[..n]) + multiset{s[n]};
      if x == s[n] {
        assert x !in s[..n];
        assert x !in multiset(s[..n]);
      }
    }
  }

  lemma {:induction false} UnreducedCount(contexts: seq<int>, consumed: seq<int>, x: int)
    ensures multiset(Unreduced(contexts, consumed))[x] == if x in consumed then 0 else multiset(contexts)[x]
    decreases |contexts|
  {
    if contexts != [] {
      var n := |contexts| - 1;
      UnreducedCount(contexts[..n], consumed, x);
      assert contexts == contexts[..n] + [contexts[n]];
      assert multiset(contexts) == multiset(contexts[..n]) + multiset{contexts[n]};
    }
  }

  /** When no context is reduced twice, what the reductions read and what is left
      over make up all contexts. */
  lemma ReducedAndUnreduced(contexts: seq<int>, consumed: seq<int>)
    requires multiset(consumed) <= multiset(contexts) && NoRepeats(contexts)
    ensures multiset(consumed) + multiset(Unreduced(contexts, consumed)) == multiset(contexts)
    ensures |Unreduced(contexts, consumed)| == |contexts| - |consumed|
  {
    forall x: int
      ensures multiset(consumed)[x] + multiset(Unreduced(contexts, consumed))[x] == multiset(contexts)[x]
    {
      UnreducedCount(contexts, consumed, x);
      NoRepeatsCount(contexts, x);
      assert x in consumed <==> multiset(consumed)[x] >= 1;
    }
    assert multiset(consumed) + multiset(Unreduced(contexts, consumed)) == multiset(contexts);
    assert |multiset(consumed)| + |multiset(Unreduced(contexts, consumed))| == |multiset(contexts)|;
  }

  /** An output projection that depends on the terminals delivers every result. */
  lemma TerminalsDeliver(attention: seq<Record>, terminals: seq<int>)
    requires terminals == TerminalIds(attention)
    requires multiset(Consumed(attention)) <= multiset(Contexts(attention)) && NoRepeats(Contexts(attention))
    ensures multiset(Consumed(attention)) + multiset(terminals) == multiset(Contexts(attention)) + multiset(Reductions(attention))
    ensures multiset(Reductions(attention)) <= multiset(terminals)
    ensures |terminals| == |Reductions(attention)| + |Contexts(attention)| - |Consumed(attention)|
  {
    ReducedAndUnreduced(Contexts(attention), Consumed(attention));
  }

  lemma NoRepeatsSnoc(s: seq<int>, x: int)
    requires NoRepeats(s) && x !in s
    ensures NoRepeats(s + [x])
  {
  }

  lemma {:induction false} ContextsIncrease(rs: seq<Record>)
    requires IdsIncrease(rs)
    ensures NoRepeats(Contexts(rs))
    ensures rs != [] ==> forall x :: x in Contexts(rs) ==> x <= rs[|rs| - 1].id
    decreases |rs|
  {
    if rs != [] {
      var n := |rs| - 1;
      ContextsIncrease(rs[..n]);
      assert n > 0 ==> rs[..n][n - 1].id < rs[n].id;
      assert forall x :: x in Contexts(rs[..n]) ==> x < rs[n].id;
      NoRepeatsSnoc(Contexts(rs[..n]), rs[n].id);
      assert Contexts(rs[..n]) + [] == Contexts(rs[..n]);
    }
  }

  lemma {:induction false} ReductionsFrom(rs: seq<Record>, x: int)
    requires x in Reductions(rs)
    ensures exists i :: 0 <= i < |rs| && rs[i].id == x && IsReduction(rs[i])
    decreases |rs|
  {
    var n := |rs| - 1;
    if x in Reductions(rs[..n]) {
      ReductionsFrom(rs[..n], x);
      var i :| 0 <= i < n && rs[..n][i].id == x && IsReduction(rs[..n][i]);
      assert rs[i].id == x && IsReduction(rs[i]);
    } else {
      assert rs[n].id == x && IsReduction(rs[n]);
    }
  }

  lemma {:induction false} ContextsFrom(rs: seq<Record>, x: int)
    requires x in Contexts(rs)
    ensures exists i :: 0 <= i < |rs| && rs[i].id == x && rs[i].kind.AttentionContext?
    decreases |rs|
  {
    var n := |rs| - 1;
    if x in Contexts(rs[..n]) {
      ContextsFrom(rs[..n], x);
      var i :| 0 <= i < n && rs[..n][i].id == x && rs[..n][i].kind.AttentionContext?;
      assert rs[i].id == x && rs[i].kind.AttentionContext?;
    } else {
      assert rs[n].id == x && rs[n].kind.AttentionContext?;
    }
  }

  lemma ResultsDisjoint(rs: seq<Record>, c: int)
    requires IdsIncrease(rs) && c in Contexts(rs)
    ensures c !in Reductions(rs)
  {
    if c in Reductions(rs) {
      ContextsFrom(rs, c);
      ReductionsFrom(rs, c);
      assert false;
    }
  }

  /** A delivered context is read by exactly one reduction, or directly by an output
      projection, and not by both. */
  lemma DeliveredOnce(rs: seq<Record>, c: int)
    requires Delivered(rs) && IdsIncrease(rs) && c in Contexts(rs)
    ensures multiset(Consumed(rs))[c] + multiset(Collected(rs))[c] == 1
  {
    ContextsIncrease(rs);
    ResultsDisjoint(rs, c);
    NoRepeatsCount(Contexts(rs), c);
    assert c in multiset(Contexts(rs));
    assert c !in multiset(Reductions(rs));
    var all := multiset(Consumed(rs)) + multiset(Collected(rs));
    assert all[c] == multiset(Contexts(rs))[c] + multiset(Reductions(rs))[c];
  }

  // ---- moving a block ----

  lemma {:induction false} ShiftAllCount(ids: seq<int>, offset: int, x: int)
    ensures multiset(ShiftAll(ids, offset))[x] == multiset(ids)[x - offset]
    decreases |ids|
  {
    if ids != [] {
      var n := |ids| - 1;
      ShiftAllCount(ids[..n], offset, x);
      assert ids == ids[..n] + [ids[n]];
      assert ShiftAll(ids, offset) == ShiftAll(ids[..n], offset) + [ids[n] + offset];
      assert multiset(ids) == multiset(ids[..n]) + multiset{ids[n]};
      assert multiset(ShiftAll(ids, offset)) == multiset(ShiftAll(ids[..n], offset)) + multiset{ids[n] + offset};
    }
  }

  lemma ShiftAllSubset(a: seq<int>, b: seq<int>, offset: int)
    requires multiset(a) <= multiset(b)
    ensures multiset(ShiftAll(a, offset)) <= multiset(ShiftAll(b, offset))
  {
    forall x: int
      ensures multiset(ShiftAll(a, offset))[x] <= multiset(ShiftAll(b, offset))[x]
    {
      ShiftAllCount(a, offset, x);
      ShiftAllCount(b, offset, x);
    }
  }

  /** A fold that reads only ids and dependencies follows a block to its place. */
  lemma {:induction false} PlacedFold(f: Record -> seq<int>, rs: seq<Record>, start: int, layer: nat)
    requires forall i :: 0 <= i < |rs| ==> f(Retarget(Shift(rs[i], start), layer)) == ShiftAll(f(rs[i]), start)
    ensures FlatMap(f, Placed(rs, start, layer)) == ShiftAll(FlatMap(f, rs), start)
    decreases |rs|
  {
    if rs != [] {
      var n := |rs| - 1;
      PlacedFold(f, rs[..n], start, layer);
      assert Placed(rs, start, layer)[..n] == Placed(rs[..n], start, layer);
    }
  }

  lemma {:induction false} PlacedTotal(rs: seq<Record>, start: int, layer: nat)
    ensures Requests(Placed(rs, start, layer)) == Requests(rs)
    decreases |rs|
  {
    if rs != [] {
      var n := |rs| - 1;
      PlacedTotal(rs[..n], start, layer);
      assert Placed(rs, start, layer)[..n] == Placed(rs[..n], start, layer);
    }
  }

  lemma PlacedIds(rs: seq<Record>, start: int, layer: nat)
    ensures Consumed(Placed(rs, start, layer)) == ShiftAll(Consumed(rs), start)
    ensures Contexts(Placed(rs, start, layer)) == ShiftAll(Contexts(rs), start)
    ensures Reductions(Placed(rs, start, layer)) == ShiftAll(Reductions(rs), start)
  {
    PlacedFold(ConsumedBy, rs, start, layer);
    PlacedFold(ContextId, rs, start, layer);
    PlacedFold(ReductionId, rs, start, layer);
  }

  /** Moving a block keeps its requests, its terminal count and its reductions' room. */
  lemma PlacedResults(rs: seq<Record>, start: int, layer: nat)
    requires multiset(Consumed(rs)) <= multiset(Contexts(rs))
    ensures multiset(Consumed(Placed(rs, start, layer))) <= multiset(Contexts(Placed(rs, start, layer)))
    ensures |Consumed(Placed(rs, start, layer))| == |Consumed(rs)|
    ensures |Contexts(Placed(rs, start, layer))| == |Contexts(rs)|
    ensures |Reductions(Placed(rs, start, layer))| == |Reductions(rs)|
    ensures Requests(Placed(rs, start, layer)) == Requests(rs)
  {
    PlacedIds(rs, start, layer);
    PlacedTotal(rs, start, layer);
    ShiftAllSubset(Consumed(rs), Contexts(rs), start);
  }

  // ---- relinking and dropping ----

  lemma FlatMapCons(f: Record -> seq<int>, r: Record, rs: seq<Record>)
    ensures FlatMap(f, [r] + rs) == f(r) + FlatMap(f, rs)
  {
    FlatMapConcat(f, [r], rs);
    assert [r][..0] == [];
  }

  lemma TotalCons(f: Record -> int, r: Record, rs: seq<Record>)
    ensures Total(f, [r] + rs) == f(r) + Total(f, rs)
  {
    TotalConcat(f, [r], rs);
    assert [r][..0] == [];
  }

  /** A fold blind to what relinking changes does not see the deduplication. */
  lemma {:induction false} DedupedFold(f: Record -> seq<int>, rs: seq<Record>, a: Anchors)
    requires forall i :: 0 <= i < |rs| ==> f(RelinkDecode(rs[i], a)) == f(rs[i]) && (Dropped(rs[i], a) ==> f(rs[i]) == [])
    ensures FlatMap(f, Deduped(rs, a)) == FlatMap(f, rs)
    decreases |rs|
  {
    if rs != [] {
      DedupedFold(f, rs[1..], a);
      assert rs == [rs[0]] + rs[1..];
      FlatMapCons(f, rs[0], rs[1..]);
      FlatMapCons(f, RelinkDecode(rs[0], a), Deduped(rs[1..], a));
      assert [] + Deduped(rs[1..], a) == Deduped(rs[1..], a);
    }
  }

  lemma {:induction false} DedupedTotal(rs: seq<Record>, a: Anchors)
    ensures Requests(Deduped(rs, a)) == Requests(rs)
    decreases |rs|
  {
    if rs != [] {
      DedupedTotal(rs[1..], a);
      assert rs == [rs[0]] + rs[1..];
      TotalCons(MacRequests, rs[0], rs[1..]);
      if Dropped(rs[0], a) {
        assert Deduped(rs, a) == Deduped(rs[1..], a);
      } else {
        TotalCons(MacRequests, RelinkDecode(rs[0], a), Deduped(rs[1..], a));
      }
    }
  }

  lemma DedupedReductions(rs: seq<Record>, a: Anchors)
    requires forall i :: 0 <= i < |rs| ==> AttentionShape(rs[i])
    ensures Consumed(Deduped(rs, a)) == Consumed(rs)
    ensures Reductions(Deduped(rs, a)) == Reductions(rs)
  {
    forall i | 0 <= i < |rs|
      ensures ConsumedBy(RelinkDecode(rs[i], a)) == ConsumedBy(rs[i]) && (Dropped(rs[i], a) ==> ConsumedBy(rs[i]) == [])
      ensures ReductionId(RelinkDecode(rs[i], a)) == ReductionId(rs[i]) && (Dropped(rs[i], a) ==> ReductionId(rs[i]) == [])
    {
      assert AttentionShape(rs[i]);
    }
    DedupedFold(ConsumedBy, rs, a);
    DedupedFold(ReductionId, rs, a);
  }

  lemma DedupedContexts(rs: seq<Record>, a: Anchors)
    ensures Contexts(Deduped(rs, a)) == Contexts(rs)
  {
    DedupedFold(ContextId, rs, a);
  }

  /** Deduplication leaves the attention results and the work alone. */
  lemma DedupedResults(rs: seq<Record>, a: Anchors)
    requires forall i :: 0 <= i < |rs| ==> AttentionShape(rs[i])
    ensures Consumed(Deduped(rs, a)) == Consumed(rs)
    ensures Contexts(Deduped(rs, a)) == Contexts(rs)
    ensures Reductions(Deduped(rs, a)) == Reductions(rs)
    ensures Requests(Deduped(rs, a)) == Requests(rs)
  {
    DedupedReductions(rs, a);
    DedupedContexts(rs, a);
    DedupedTotal(rs, a);
  }
}
