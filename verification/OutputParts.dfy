/** The output projection of a layer, the block after it, and how the parts of a layer
    add up. */
module OutputParts {
  import opened Assembly
  import opened Attention
  import opened AttentionParts
  import opened Blocks
  import opened Delivery
  import opened LayerParts
  import opened Manifests
  import opened Records
  import opened Relinking
  import opened Sequences

  // ---- the output projection ----

  function OutputRecord(requests: int): Record {
    Record(0, FFNProjection, 0, OProjection, [Tensor(0, AttentionContextInput), Tensor(0, ProjectionWeight(OProjection))],
           [Tensor(0, AttentionOutput)], [], requests)
  }

  lemma {:induction false} OutputBlockSound(requests: int)
    ensures Numbered([OutputRecord(requests)]) && Sound(map[], [OutputRecord(requests)], true)
  {
    assert Sound(map[], [], true) && Follows(map[], OutputRecord(requests), true);
    Append(map[], [], OutputRecord(requests), true);
    assert [] + [OutputRecord(requests)] == [OutputRecord(requests)];
  }

  /** Outputs of the terminal records, in record order. */
  method TerminalTensors(rs: seq<Record>, terminals: seq<int>) returns (tensors: seq<Tensor>)
    ensures forall t :: t in tensors <==> exists i :: 0 <= i < |rs| && rs[i].id in terminals && t in rs[i].outputs
  {
    tensors := [];
    for i := 0 to |rs|
      invariant forall t :: t in tensors <==> exists k :: 0 <= k < i && rs[k].id in terminals && t in rs[k].outputs
    {
      if rs[i].id in terminals {
        tensors := tensors + rs[i].outputs;
      }
    }
  }

  lemma {:induction false} TerminalPlain(rs: seq<Record>, part: seq<Record>, x: int, ports: bool)
    requires Sound(Env(rs), part, ports) && Env(rs + part) == After(Env(rs), part) && ResultsPlain(part)
    requires x in TerminalIds(part)
    ensures Plain(Env(rs + part), x)
  {
    if x in Reductions(part) {
      ReductionsFrom(part, x);
    } else {
      ContextsFrom(part, x);
    }
    var i :| 0 <= i < |part| && part[i].id == x && (IsReduction(part[i]) || part[i].kind.AttentionContext?);
    AfterSupplies(Env(rs), part, i, ports);
  }

  lemma {:induction false} OutputRewired(rs: seq<Record>, part: seq<Record>, r: Record, layer: nat, terminals: seq<int>, tensors: seq<Tensor>, ports: bool)
    requires Sound(Env(rs), part, ports) && Env(rs + part) == After(Env(rs), part) && ResultsPlain(part)
    requires terminals == TerminalIds(part)
    requires forall t :: t in tensors ==> exists i :: 0 <= i < |part| && part[i].id in terminals && t in part[i].outputs
    ensures Rewired(Env(rs + part), r,
                    r.(inputs := tensors + [Tensor(layer, ProjectionWeight(OProjection))], deps := terminals), ports)
  {
    forall d | d in terminals ensures Plain(Env(rs + part), d) {
      TerminalPlain(rs, part, d, ports);
    }
    forall t | t in tensors ensures Fed(Env(rs + part), terminals, t, ports) {
      var i :| 0 <= i < |part| && part[i].id in terminals && t in part[i].outputs;
      AfterSupplies(Env(rs), part, i, ports);
      assert Supplies(Env(rs + part), part[i].id, t);
    }
  }

  ghost predicate TerminalOutput(part: seq<Record>, t: Tensor) {
    exists i :: 0 <= i < |part| && part[i].id in TerminalIds(part) && t in part[i].outputs
  }

  /** The record depends on the terminals, and reads what they produce and its weight. */
  ghost predicate Gathers(part: seq<Record>, o: Record, layer: nat) {
    && o.op == OProjection && o.kind == FFNProjection && o.deps == TerminalIds(part)
    && o.outputs == [Tensor(layer, AttentionOutput)]
    && o.inputs != [] && o.inputs[|o.inputs| - 1] == Tensor(layer, ProjectionWeight(OProjection))
    && forall t :: t in o.inputs[..|o.inputs| - 1] <==> TerminalOutput(part, t)
  }

  /** The output projection: it depends on the terminals and on nothing else. */
  method AddOutput(ghost rs: seq<Record>, part: seq<Record>, ghost start: int, next: int, layer: nat, d: Dims,
                   ghost requests: int, ghost terminals: int, ghost ports: bool)
      returns (out: seq<Record>, next2: int, o: int)
    requires AttentionPart(rs, part, start, next, layer, requests, terminals, ports)
    ensures Extended(rs + part, out, next, next2, layer, ports)
    ensures |out| == 1 && Gathers(part, out[0], layer) && o == out[0].id == next < next2
    ensures Requests(out) == Work(d, d.hidden, d.oDim)
    ensures Has(rs + part + out, o, Tensor(layer, AttentionOutput))
  {
    var ids := FindTerminalIds(part);
    var tensors := TerminalTensors(part, ids);
    var work := Work(d, d.hidden, d.oDim);
    OutputBlockSound(work);
    var placed;
    placed, next2 := Install([OutputRecord(work)], next, layer, true);
    var r := placed[0].(inputs := tensors + [Tensor(layer, ProjectionWeight(OProjection))], deps := ids);
    out := [r];
    o := r.id;
    OutputRewired(rs, part, placed[0], layer, ids, tensors, ports);
    RelinkedBlockJoins(rs + part, next, [OutputRecord(work)], out, layer, ports);
    assert r.outputs == [Tensor(layer, AttentionOutput)];
    PartHas(rs + part, out, 0, Tensor(layer, AttentionOutput), ports);
    RequestsOfOne(r);
    assert r.inputs[..|r.inputs| - 1] == tensors;
  }

  lemma {:induction false} RequestsOfOne(r: Record)
    ensures Requests([r]) == MacRequests(r) && Consumed([r]) == ConsumedBy(r) && Contexts([r]) == ContextId(r)
    ensures Reductions([r]) == ReductionId(r) && Collected([r]) == OutputDeps(r)
  {
    TotalAppend(MacRequests, [], r);
    FlatMapAppend(ConsumedBy, [], r);
    FlatMapAppend(ContextId, [], r);
    FlatMapAppend(ReductionId, [], r);
    FlatMapAppend(OutputDeps, [], r);
    assert [] + [r] == [r];
    assert [] + ConsumedBy(r) == ConsumedBy(r) && [] + OutputDeps(r) == OutputDeps(r);
  }

  // ---- the block after attention ----

  /** What the block after attention works for. */
  function TailBucket(tiles: bool): Bucket {
    if tiles then FfnBucket else ExpertBucket
  }

  function LinkInput(r: Record, op: Op, layer: nat, o: int): Record {
    if r.op == op then r.(inputs := [Tensor(layer, AttentionOutput)], deps := [o]) else r
  }

  method LinkInputs(placed: seq<Record>, op: Op, layer: nat, o: int) returns (part: seq<Record>)
    ensures |part| == |placed| && forall i :: 0 <= i < |part| ==> part[i] == LinkInput(placed[i], op, layer, o)
  {
    part := [];
    for i := 0 to |placed|
      invariant |part| == i
      invariant forall j :: 0 <= j < i ==> part[j] == LinkInput(placed[j], op, layer, o)
    {
      part := part + [LinkInput(placed[i], op, layer, o)];
    }
  }

  lemma {:induction false} InputRewired(rs: seq<Record>, r: Record, op: Op, start: int, layer: nat, o: int, tiles: bool, ports: bool)
    requires QuietShape(r) && (r.op.HiddenTileSetup? ==> tiles) && (tiles ==> op == HiddenTileSetup)
    requires Has(rs, o, Tensor(layer, AttentionOutput))
    ensures Rewired(Env(rs), Retarget(Shift(r, start), layer), LinkInput(Retarget(Shift(r, start), layer), op, layer, o), ports)
  {
    var p := Retarget(Shift(r, start), layer);
    assert o in [o] && Supplies(Env(rs), o, Tensor(layer, AttentionOutput));
    forall t | t in p.inputs ensures exists u :: u in r.inputs && u.name == t.name {
      var j :| 0 <= j < |p.inputs| && p.inputs[j] == t;
      assert r.inputs[j] in r.inputs;
    }
  }

  lemma {:induction false} TailRewired(rs: seq<Record>, block: seq<Record>, i: nat, op: Op, start: int, layer: nat, o: int, tiles: bool, ports: bool)
    requires QuietBlock(block, Scope(1, tiles)) && (tiles ==> op == HiddenTileSetup) && i < |block|
    requires Has(rs, o, Tensor(layer, AttentionOutput))
    ensures var p := Retarget(Shift(block[i], start), layer);
      Rewired(Env(rs), p, LinkInput(p, op, layer, o), ports) && LinkInput(p, op, layer, o).layer == layer
      && !IsReduction(p) && !p.kind.AttentionScore? && !p.kind.AttentionContext? && !OfAttention(p.op)
      && ProjectsIn(p.kind, Scope(1, tiles))
  {
    QuietAt(block, Scope(1, tiles), i);
    InputRewired(rs, block[i], op, start, layer, o, tiles, ports);
  }

  lemma {:induction false} TailJoins(rs: seq<Record>, block: seq<Record>, part: seq<Record>, op: Op, next: int, layer: nat, o: int, tiles: bool, ports: bool)
    requires Trace(rs, next, ports) && QuietBlock(block, Scope(1, tiles)) && (tiles ==> op == HiddenTileSetup)
    requires Has(rs, o, Tensor(layer, AttentionOutput)) && op != OProjection
    requires |part| == |block| && forall i :: 0 <= i < |part| ==> part[i] == LinkInput(Placed(block, next, layer)[i], op, layer, o)
    ensures Extended(rs, part, next, next + |block|, layer, ports) && Quiet(part) && Requests(part) == Requests(block)
    ensures Pure(part, TailBucket(tiles))
  {
    var placed := Placed(block, next, layer);
    forall i | 0 <= i < |block|
      ensures part[i].layer == layer && Rewired(Env(rs), placed[i], part[i], ports)
      ensures !IsReduction(part[i]) && !part[i].kind.AttentionScore? && !part[i].kind.AttentionContext? && !OfAttention(part[i].op)
      ensures ProjectsIn(part[i].kind, Scope(1, tiles))
    {
      TailRewired(rs, block, i, op, next, layer, o, tiles, ports);
    }
    RelinkedBlockJoins(rs, next, block, part, layer, ports);
    PlacedTotal(block, next, layer);
    TotalSame(MacRequests, placed, part);
  }

  /** The feed-forward or mixture-of-experts block, fed by the output projection. */
  method AddTail(ghost rs: seq<Record>, block: seq<Record>, op: Op, next: int, layer: nat, o: int, ghost tiles: bool, ghost ports: bool)
      returns (part: seq<Record>, next2: int)
    requires Trace(rs, next, ports) && QuietBlock(block, Scope(1, tiles)) && (tiles ==> op == HiddenTileSetup)
    requires Has(rs, o, Tensor(layer, AttentionOutput)) && op != OProjection
    ensures Extended(rs, part, next, next2, layer, ports) && Quiet(part) && Requests(part) == Requests(block)
    ensures Pure(part, TailBucket(tiles))
    ensures |part| == |block| && forall i :: 0 <= i < |part| ==> part[i] == LinkInput(Placed(block, next, layer)[i], op, layer, o)
  {
    var placed;
    placed, next2 := Install(block, next, layer, true);
    part := LinkInputs(placed, op, layer, o);
    TailJoins(rs, block, part, op, next, layer, o, tiles, ports);
  }

  // ---- adding up a layer ----

  lemma {:induction false} QuietFolds(part: seq<Record>)
    requires Quiet(part)
    ensures Consumed(part) == [] && Contexts(part) == [] && Reductions(part) == [] && Collected(part) == []
    decreases |part|
  {
    if part != [] {
      QuietFolds(part[..|part| - 1]);
    }
  }

  lemma {:induction false} NoOutputs(part: seq<Record>)
    requires ResultsPlain(part)
    ensures Collected(part) == []
    decreases |part|
  {
    if part != [] {
      NoOutputs(part[..|part| - 1]);
    }
  }

  lemma {:induction false} FoldsConcat(a: seq<Record>, b: seq<Record>)
    ensures Consumed(a + b) == Consumed(a) + Consumed(b) && Contexts(a + b) == Contexts(a) + Contexts(b)
    ensures Reductions(a + b) == Reductions(a) + Reductions(b) && Collected(a + b) == Collected(a) + Collected(b)
    ensures Requests(a + b) == Requests(a) + Requests(b)
  {
    FlatMapConcat(ConsumedBy, a, b);
    FlatMapConcat(ContextId, a, b);
    FlatMapConcat(ReductionId, a, b);
    FlatMapConcat(OutputDeps, a, b);
    TotalConcat(MacRequests, a, b);
  }

  /** Quiet records around an attention block and its output projection leave the
      results delivered. */
  lemma {:induction false} LayerDelivers(before: seq<Record>, attention: seq<Record>, out: seq<Record>, after: seq<Record>)
    requires Quiet(before) && Quiet(after) && ResultsPlain(attention)
    requires multiset(Consumed(attention)) <= multiset(Contexts(attention)) && NoRepeats(Contexts(attention))
    requires |out| == 1 && out[0].op == OProjection && out[0].kind == FFNProjection && out[0].deps == TerminalIds(attention)
    ensures Delivered(before + attention + out + after)
    ensures |Collected(before + attention + out + after)| == Terminals(attention)
    ensures Requests(before + attention + out + after) == Requests(before) + Requests(attention) + Requests(out) + Requests(after)
  {
    QuietFolds(before);
    QuietFolds(after);
    NoOutputs(attention);
    RequestsOfOne(out[0]);
    assert out == [out[0]];
    FoldsConcat(before, attention);
    FoldsConcat(before + attention, out);
    FoldsConcat(before + attention + out, after);
    TerminalsDeliver(attention, out[0].deps);
    OnlyAttentionCounts(before + attention + out + after, attention, out[0]);
  }

  lemma {:induction false} OnlyAttentionCounts(all: seq<Record>, attention: seq<Record>, o: Record)
    requires Consumed(all) == [] + Consumed(attention) + [] + []
    requires Contexts(all) == [] + Contexts(attention) + [] + []
    requires Reductions(all) == [] + Reductions(attention) + [] + []
    requires Collected(all) == [] + [] + o.deps + []
    requires multiset(Consumed(attention)) + multiset(o.deps) == multiset(Contexts(attention)) + multiset(Reductions(attention))
    requires multiset(Reductions(attention)) <= multiset(o.deps)
    requires multiset(Consumed(attention)) <= multiset(Contexts(attention))
    ensures Delivered(all) && Collected(all) == o.deps
  {
    assert Consumed(all) == Consumed(attention) && Contexts(all) == Contexts(attention);
    assert Reductions(all) == Reductions(attention) && Collected(all) == o.deps;
  }
}
