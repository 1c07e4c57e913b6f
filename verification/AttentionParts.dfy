/** Attention blocks in their layer: relinked to the layer's projections and cache
    writes, and collected by the output projection. */
module AttentionParts {
  import opened Assembly
  import opened Attention
  import opened Delivery
  import opened Manifests
  import opened Records
  import opened Relinking
  import opened Results
  import opened Sequences

  /** Results never carry a query operand, and nothing here is an output projection. */
  ghost predicate ResultsPlain(part: seq<Record>) {
    forall i :: 0 <= i < |part| ==> ResultPlain(part[i])
  }

  ghost predicate ResultPlain(r: Record) {
    && !r.op.OProjection? && !IsProjection(r.kind)
    && (IsReduction(r) || r.kind.AttentionContext? ==> forall t :: t in r.outputs ==> !QueryOperand(t.name))
  }

  /** An attention block in its place: `terminals` results, `requests` of work. */
  ghost predicate AttentionPart(rs: seq<Record>, part: seq<Record>, next: int, next2: int, layer: nat, requests: int,
                                terminals: int, ports: bool) {
    && Extended(rs, part, next, next2, layer, ports)
    && Sound(Env(rs), part, ports) && Env(rs + part) == After(Env(rs), part)
    && ResultsPlain(part)
    && multiset(Consumed(part)) <= multiset(Contexts(part)) && NoRepeats(Contexts(part))
    && Requests(part) == requests && Terminals(part) == terminals
  }

  lemma {:induction false} ShapePlaced(r: Record, offset: int, layer: nat)
    requires AttentionShape(r)
    ensures AttentionShape(Retarget(Shift(r, offset), layer))
  {
    var w := Retarget(Shift(r, offset), layer);
    forall t | t in w.inputs ensures exists u :: u in r.inputs && u.name == t.name {
      var j :| 0 <= j < |w.inputs| && w.inputs[j] == t;
      assert r.inputs[j] in r.inputs;
    }
    forall t | t in w.outputs ensures exists u :: u in r.outputs && u.name == t.name {
      var j :| 0 <= j < |w.outputs| && w.outputs[j] == t;
      assert r.outputs[j] in r.outputs;
    }
  }

  lemma {:induction false} PlacedIncrease(block: seq<Record>, next: int, layer: nat)
    requires Numbered(block)
    ensures IdsIncrease(Placed(block, next, layer)) && NoRepeats(Contexts(Placed(block, next, layer)))
  {
    ContextsIncrease(Placed(block, next, layer));
  }

  /** What placing an attention block preserves. */
  ghost predicate PlacedAttention(block: seq<Record>, p: seq<Record>, next: int, layer: nat, tiles: bool) {
    && |p| == |block| && p != [] && IsQueryResidency(p[0])
    && (forall i :: 0 <= i < |p| ==> p[i].id == next + i && p[i].layer == layer && AttentionShape(p[i]))
    && (tiles || forall i :: 0 <= i < |p| ==> !p[i].op.PrefillTileResidency?)
    && multiset(Consumed(p)) <= multiset(Contexts(p)) && NoRepeats(Contexts(p))
    && Requests(p) == Requests(block) && Terminals(p) == Terminals(block)
  }

  lemma {:induction false} PlacingAttention(block: seq<Record>, next: int, layer: nat, tiles: bool)
    requires AttentionBlock(block, Scope(1, tiles)) && block != []
    ensures PlacedAttention(block, Placed(block, next, layer), next, layer, tiles)
  {
    forall i: nat | i < |block|
      ensures AttentionShape(Placed(block, next, layer)[i]) && Placed(block, next, layer)[i].layer == layer
      ensures tiles || !block[i].op.PrefillTileResidency?
    {
      ShapedAt(block, Scope(1, tiles), i);
      ShapePlaced(block[i], next, layer);
    }
    PlacedIncrease(block, next, layer);
    PlacedResults(block, next, layer);
  }

  // ---- decode: one canonical query residency ----

  method QueryIds(rs: seq<Record>) returns (ids: seq<int>)
    ensures ids == FlatMap(QueryId, rs)
  {
    ids := [];
    for i := 0 to |rs|
      invariant ids == FlatMap(QueryId, rs[..i])
    {
      assert rs[..i + 1][..i] == rs[..i];
      if rs[i].kind.PIMOperandResidency? && rs[i].op.QOperandResidency? {
        ids := ids + [rs[i].id];
      }
    }
    assert rs[..|rs|] == rs;
  }

  lemma {:induction false} QueryIdsFrom(rs: seq<Record>, x: int)
    requires x in FlatMap(QueryId, rs)
    ensures exists i :: 0 <= i < |rs| && IsQueryResidency(rs[i]) && rs[i].id == x
    decreases |rs|
  {
    var n := |rs| - 1;
    if x in FlatMap(QueryId, rs[..n]) {
      QueryIdsFrom(rs[..n], x);
      var i :| 0 <= i < n && IsQueryResidency(rs[..n][i]) && rs[..n][i].id == x;
      assert IsQueryResidency(rs[i]) && rs[i].id == x;
    } else {
      assert IsQueryResidency(rs[n]) && rs[n].id == x;
    }
  }

  lemma {:induction false} QueryIdsHold(rs: seq<Record>, i: nat)
    requires i < |rs| && IsQueryResidency(rs[i])
    ensures rs[i].id in FlatMap(QueryId, rs)
    decreases |rs|
  {
    var n := |rs| - 1;
    if i < n {
      QueryIdsHold(rs[..n], i);
    }
  }

  lemma {:induction false} FirstQueryId(rs: seq<Record>)
    requires rs != [] && IsQueryResidency(rs[0])
    ensures FlatMap(QueryId, rs) != [] && FlatMap(QueryId, rs)[0] == rs[0].id
    decreases |rs|
  {
    if |rs| > 1 {
      FirstQueryId(rs[..|rs| - 1]);
    } else {
      assert rs[..|rs| - 1] == [];
    }
  }

  lemma {:induction false} QueryIdsAre(rs: seq<Record>)
    requires IdsIncrease(rs)
    ensures forall i :: 0 <= i < |rs| ==> (IsQueryResidency(rs[i]) <==> rs[i].id in FlatMap(QueryId, rs))
    ensures forall x :: x in FlatMap(QueryId, rs) ==> exists i :: 0 <= i < |rs| && rs[i].id == x
    ensures rs != [] && IsQueryResidency(rs[0]) ==> FlatMap(QueryId, rs) != [] && FlatMap(QueryId, rs)[0] == rs[0].id
  {
    forall x | x in FlatMap(QueryId, rs)
      ensures exists i :: 0 <= i < |rs| && IsQueryResidency(rs[i]) && rs[i].id == x
    {
      QueryIdsFrom(rs, x);
    }
    forall i | 0 <= i < |rs| && IsQueryResidency(rs[i])
      ensures rs[i].id in FlatMap(QueryId, rs)
    {
      QueryIdsHold(rs, i);
    }
    if rs != [] && IsQueryResidency(rs[0]) {
      FirstQueryId(rs);
    }
  }

  /** The relinking pass and the removal of duplicate query residencies. */
  method Deduplicate(rs: seq<Record>, a: Anchors) returns (kept: seq<Record>)
    ensures kept == Deduped(rs, a)
  {
    var relinked := [];
    for i := 0 to |rs|
      invariant |relinked| == i
      invariant forall k :: 0 <= k < i ==> relinked[k] == RelinkDecode(rs[k], a)
    {
      relinked := relinked + [RelinkDecode(rs[i], a)];
    }
    kept := [];
    for i := 0 to |rs|
      invariant kept + Deduped(rs[i..], a) == Deduped(rs, a)
    {
      assert rs[i..][1..] == rs[i + 1..];
      if !(IsQueryResidency(relinked[i]) && a.keep != Some(relinked[i].id)) {
        kept := kept + [relinked[i]];
      } else {
        assert [] + Deduped(rs[i + 1..], a) == Deduped(rs[i + 1..], a);
      }
    }
  }

  lemma {:induction false} DedupedFrom(rs: seq<Record>, a: Anchors, i: nat) returns (j: nat)
    requires i < |Deduped(rs, a)|
    ensures j < |rs| && !Dropped(rs[j], a) && Deduped(rs, a)[i] == RelinkDecode(rs[j], a)
    decreases |rs|
  {
    if Dropped(rs[0], a) {
      assert Deduped(rs, a) == Deduped(rs[1..], a);
      j := DedupedFrom(rs[1..], a, i);
      j := j + 1;
    } else if i > 0 {
      assert Deduped(rs, a)[i] == Deduped(rs[1..], a)[i - 1];
      j := DedupedFrom(rs[1..], a, i - 1);
      j := j + 1;
    } else {
      j := 0;
    }
  }

  ghost predicate AnchorsOf(rs: seq<Record>, p: seq<Record>, a: Anchors, next: int, layer: nat) {
    && a.layer == layer && p != [] && a.queries == FlatMap(QueryId, p) && a.keep == Some(next) && p[0].id == next
    && Has(rs, a.query, Tensor(layer, Query)) && Plain(Env(rs), a.keyAppend) && Plain(Env(rs), a.valueAppend)
  }

  lemma {:induction false} KeptQueryFollows(env: Outputs, r: Record, a: Anchors, ports: bool)
    requires IsQueryResidency(r) && a.keep == Some(r.id)
    requires forall k :: k in env ==> k < r.id
    requires Plain(env, a.query) && Supplies(env, a.query, Tensor(a.layer, Query))
    ensures Follows(env, RelinkDecode(r, a), ports)
    ensures RelinkDecode(r, a).id == r.id && RelinkDecode(r, a).outputs == [a.GlobalQuery()]
  {
    var w := RelinkDecode(r, a);
    assert w.deps == [a.query] && a.query in w.deps;
  }

  lemma {:induction false} FirstTracks(env: Outputs, r: Record, a: Anchors, next: int)
    requires IsQueryResidency(r) && AttentionShape(r) && r.id == next && a.keep == Some(next) && next in a.queries
    requires forall k :: k in env ==> k < next
    requires forall x :: x in a.queries ==> x >= next
    requires Plain(env, a.query) && Plain(env, a.keyAppend) && Plain(env, a.valueAppend)
    ensures Tracks(env[r.id := r.outputs], env[r.id := [a.GlobalQuery()]], a)
    ensures Anchored(env[r.id := [a.GlobalQuery()]], a)
  {
    assert a.GlobalQuery() in [a.GlobalQuery()];
  }

  lemma {:induction false} DedupedJoins(rs: seq<Record>, p: seq<Record>, a: Anchors, next: int, layer: nat, ports: bool)
    requires Trace(rs, next, ports) && Sound(Env(rs), p, true) && AnchorsOf(rs, p, a, next, layer)
    requires IdsIncrease(p) && IsQueryResidency(p[0])
    requires forall i :: 0 <= i < |p| ==> p[i].id == next + i && AttentionShape(p[i])
    requires ports || forall i :: 0 <= i < |p| ==> !p[i].op.PrefillTileResidency?
    ensures Sound(Env(rs), Deduped(p, a), ports)
  {
    var env := Env(rs);
    QueryIdsAre(p);
    forall x | x in a.queries ensures x >= next {
      var i :| 0 <= i < |p| && p[i].id == x;
    }
    KeptQueryFollows(env, p[0], a, ports);
    FirstTracks(env, p[0], a, next);
    DedupedSound(env[p[0].id := p[0].outputs], env[next := [a.GlobalQuery()]], p[1..], a, ports);
    assert Deduped(p, a)[0] == RelinkDecode(p[0], a);
    assert Deduped(p, a)[1..] == Deduped(p[1..], a);
  }

  lemma {:induction false} DedupedShapes(p: seq<Record>, a: Anchors, next2: int, layer: nat)
    requires forall i :: 0 <= i < |p| ==> 0 <= p[i].id < next2 && p[i].layer == layer && AttentionShape(p[i])
    ensures forall i :: 0 <= i < |Deduped(p, a)| ==> 0 <= Deduped(p, a)[i].id < next2 && Deduped(p, a)[i].layer == layer
    ensures ResultsPlain(Deduped(p, a))
  {
    var d := Deduped(p, a);
    forall i | 0 <= i < |d|
      ensures 0 <= d[i].id < next2 && d[i].layer == layer && !d[i].op.OProjection? && !IsProjection(d[i].kind)
      ensures IsReduction(d[i]) || d[i].kind.AttentionContext? ==> forall t :: t in d[i].outputs ==> !QueryOperand(t.name)
    {
      var j := DedupedFrom(p, a, i);
      assert AttentionShape(p[j]);
    }
  }

  lemma {:induction false} DedupedPart(rs: seq<Record>, block: seq<Record>, p: seq<Record>, a: Anchors, next: int, next2: int, layer: nat,
                    tiles: bool, ports: bool)
    requires Trace(rs, next, ports) && Sound(Env(rs), p, true) && AnchorsOf(rs, p, a, next, layer)
    requires PlacedAttention(block, p, next, layer, tiles) && next2 == next + |block| && (tiles ==> ports)
    ensures AttentionPart(rs, Deduped(p, a), next, next2, layer, Requests(block), Terminals(block), ports)
  {
    DedupedJoins(rs, p, a, next, layer, ports);
    DedupedShapes(p, a, next2, layer);
    Join(rs, Deduped(p, a), next, next2, layer, ports);
    DedupedResults(p, a);
  }

  /** A decode block in its place, relinked and deduplicated. */
  function DecodePart(block: seq<Record>, next: int, layer: nat, q: int, keyAppend: int, valueAppend: int): seq<Record> {
    Deduped(Placed(block, next, layer), DecodeAnchors(Placed(block, next, layer), layer, q, keyAppend, valueAppend, next))
  }

  function DecodeAnchors(placed: seq<Record>, layer: nat, q: int, keyAppend: int, valueAppend: int, next: int): Anchors {
    Anchors(layer, q, keyAppend, valueAppend, Some(next), FlatMap(QueryId, placed))
  }

  /** The decode attention block of a layer. */
  method AddDecodeAttention(ghost rs: seq<Record>, block: seq<Record>, next: int, layer: nat, q: int, keyAppend: int,
                            valueAppend: int, ghost tiles: bool, ghost ports: bool)
      returns (part: seq<Record>, next2: int)
    requires Trace(rs, next, ports) && AttentionBlock(block, Scope(1, tiles)) && block != [] && (tiles ==> ports)
    requires Has(rs, q, Tensor(layer, Query)) && Plain(Env(rs), keyAppend) && Plain(Env(rs), valueAppend)
    ensures AttentionPart(rs, part, next, next2, layer, Requests(block), Terminals(block), ports)
    ensures part == DecodePart(block, next, layer, q, keyAppend, valueAppend)
  {
    var placed;
    placed, next2 := Install(block, next, layer, true);
    InstalledSound(rs, next, block, layer, ports, true);
    PlacingAttention(block, next, layer, tiles);
    var queries := QueryIds(placed);
    QueryIdsAre(placed);
    var a := Anchors(layer, q, keyAppend, valueAppend, if queries != [] then Some(queries[0]) else None, queries);
    part := Deduplicate(placed, a);
    DedupedPart(rs, block, placed, a, next, next2, layer, tiles, ports);
  }

  // ---- prefill: every residency reads the layer's projections ----

  function LinkPrefill(r: Record, layer: nat, q: int, k: int, v: int): Record {
    if IsQueryResidency(r) then r.(inputs := [Tensor(layer, Query)], deps := [q])
    else if r.kind.PIMOperandResidency? && r.op == PrefillTileResidency(true) then r.(inputs := [Tensor(layer, Key)], deps := [k])
    else if r.kind.PIMOperandResidency? && r.op == PrefillTileResidency(false) then r.(inputs := [Tensor(layer, Value)], deps := [v])
    else r
  }

  lemma {:induction false} PrefillRewired(rs: seq<Record>, r: Record, layer: nat, q: int, k: int, v: int)
    requires AttentionShape(r)
    requires Has(rs, q, Tensor(layer, Query)) && Has(rs, k, Tensor(layer, Key)) && Has(rs, v, Tensor(layer, Value))
    ensures Rewired(Env(rs), r, LinkPrefill(r, layer, q, k, v), false)
    ensures ResultPlain(LinkPrefill(r, layer, q, k, v))
  {
    var w := LinkPrefill(r, layer, q, k, v);
    assert q in [q] && k in [k] && v in [v];
    assert Supplies(Env(rs), q, Tensor(layer, Query)) && Supplies(Env(rs), k, Tensor(layer, Key)) && Supplies(Env(rs), v, Tensor(layer, Value));
  }

  method LinkPrefillRecords(placed: seq<Record>, layer: nat, q: int, k: int, v: int) returns (part: seq<Record>)
    ensures |part| == |placed| && forall i :: 0 <= i < |part| ==> part[i] == LinkPrefill(placed[i], layer, q, k, v)
  {
    part := [];
    for i := 0 to |placed|
      invariant |part| == i
      invariant forall j :: 0 <= j < i ==> part[j] == LinkPrefill(placed[j], layer, q, k, v)
    {
      part := part + [LinkPrefill(placed[i], layer, q, k, v)];
    }
  }

  lemma {:induction false} LinkedPart(rs: seq<Record>, block: seq<Record>, part: seq<Record>, next: int, layer: nat, q: int, k: int, v: int)
    requires Trace(rs, next, false) && AttentionBlock(block, Scope(1, true)) && block != []
    requires PlacedAttention(block, Placed(block, next, layer), next, layer, true)
    requires Has(rs, q, Tensor(layer, Query)) && Has(rs, k, Tensor(layer, Key)) && Has(rs, v, Tensor(layer, Value))
    requires |part| == |block| && forall i :: 0 <= i < |part| ==> part[i] == LinkPrefill(Placed(block, next, layer)[i], layer, q, k, v)
    ensures AttentionPart(rs, part, next, next + |block|, layer, Requests(block), Terminals(block), false)
  {
    LinkedJoins(rs, block, part, next, layer, q, k, v);
    LinkedResults(Placed(block, next, layer), part, layer, q, k, v);
  }

  lemma {:induction false} LinkedJoins(rs: seq<Record>, block: seq<Record>, part: seq<Record>, next: int, layer: nat, q: int, k: int, v: int)
    requires Trace(rs, next, false) && AttentionBlock(block, Scope(1, true))
    requires PlacedAttention(block, Placed(block, next, layer), next, layer, true)
    requires Has(rs, q, Tensor(layer, Query)) && Has(rs, k, Tensor(layer, Key)) && Has(rs, v, Tensor(layer, Value))
    requires |part| == |block| && forall i :: 0 <= i < |part| ==> part[i] == LinkPrefill(Placed(block, next, layer)[i], layer, q, k, v)
    ensures Extended(rs, part, next, next + |block|, layer, false)
    ensures Sound(Env(rs), part, false) && Env(rs + part) == After(Env(rs), part) && ResultsPlain(part)
  {
    var placed := Placed(block, next, layer);
    forall i | 0 <= i < |part|
      ensures part[i].layer == layer && Rewired(Env(rs), placed[i], part[i], false) && ResultPlain(part[i])
    {
      PrefillRewired(rs, placed[i], layer, q, k, v);
    }
    RelinkedBlockJoins(rs, next, block, part, layer, false);
  }

  lemma {:induction false} LinkedResults(placed: seq<Record>, part: seq<Record>, layer: nat, q: int, k: int, v: int)
    requires |part| == |placed| && forall i :: 0 <= i < |part| ==> part[i] == LinkPrefill(placed[i], layer, q, k, v)
    ensures Consumed(part) == Consumed(placed) && Reductions(part) == Reductions(placed) && Contexts(part) == Contexts(placed)
    ensures Requests(part) == Requests(placed)
  {
    FlatMapSame(ConsumedBy, placed, part);
    FlatMapSame(ReductionId, placed, part);
    FlatMapSame(ContextId, placed, part);
    TotalSame(MacRequests, placed, part);
  }

  /** The prefill attention block of a layer. */
  method AddPrefillAttention(ghost rs: seq<Record>, block: seq<Record>, next: int, layer: nat, q: int, k: int, v: int)
      returns (part: seq<Record>, next2: int)
    requires Trace(rs, next, false) && AttentionBlock(block, Scope(1, true)) && block != []
    requires Has(rs, q, Tensor(layer, Query)) && Has(rs, k, Tensor(layer, Key)) && Has(rs, v, Tensor(layer, Value))
    ensures AttentionPart(rs, part, next, next2, layer, Requests(block), Terminals(block), false)
    ensures |part| == |block| && forall i :: 0 <= i < |part| ==> part[i] == LinkPrefill(Placed(block, next, layer)[i], layer, q, k, v)
  {
    var placed;
    placed, next2 := Install(block, next, layer, true);
    PlacingAttention(block, next, layer, true);
    part := LinkPrefillRecords(placed, layer, q, k, v);
    LinkedPart(rs, block, part, next, layer, q, k, v);
  }
}
