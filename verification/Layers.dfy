/** The layer generators `generate_dense_transformer_layer_records`,
    `generate_dense_prefill_transformer_layer_records` and
    `generate_moe_transformer_layer_records`. */
module Layers {
  import opened Assembly
  import opened Attention
  import opened AttentionParts
  import opened Blocks
  import opened CausalTiling
  import opened DecodeAttention
  import opened Delivery
  import opened Division
  import opened Ffn
  import opened AttentionMath
  import opened LayerMath
  import opened TailMath
  import opened LayerParts
  import opened Manifests
  import opened Moe
  import opened OutputParts
  import opened PrefillAttention
  import opened PrefillFormula
  import opened Records
  import opened Relinking
  import opened Results
  import opened Sequences

  // ---- results by layer ----

  function OfLayer(rs: seq<Record>, layer: nat): seq<Record>
    decreases |rs|
  {
    if rs == [] then []
    else OfLayer(rs[..|rs| - 1], layer) + if rs[|rs| - 1].layer == layer then [rs[|rs| - 1]] else []
  }

  lemma {:induction false} OfLayerConcat(a: seq<Record>, b: seq<Record>, layer: nat)
    ensures OfLayer(a + b, layer) == OfLayer(a, layer) + OfLayer(b, layer)
    decreases |b|
  {
    if b == [] {
      assert a + b == a;
    } else {
      var n := |b| - 1;
      assert a + b == (a + b[..n]) + [b[n]];
      assert ((a + b[..n]) + [b[n]])[..|a + b[..n]|] == a + b[..n];
      OfLayerConcat(a, b[..n], layer);
    }
  }

  lemma {:induction false} OfOneLayer(rs: seq<Record>, own: nat, layer: nat)
    requires forall i :: 0 <= i < |rs| ==> rs[i].layer == own
    ensures OfLayer(rs, layer) == if own == layer then rs else []
    decreases |rs|
  {
    if rs != [] {
      OfOneLayer(rs[..|rs| - 1], own, layer);
    }
  }

  /** Layer `l` delivers every attention result to its own output projection, which
      waits for exactly `terminals` records; and its MAC requests are `work`. */
  ghost predicate LayerDelivered(rs: seq<Record>, l: nat, terminals: int, work: Buckets) {
    Delivered(OfLayer(rs, l)) && |Collected(OfLayer(rs, l))| == terminals && WorkOf(OfLayer(rs, l)) == work
  }

  /** The trace after `layers` layers. */
  ghost predicate Built(rs: seq<Record>, next: int, layers: nat, terminals: int, work: Buckets, ports: bool) {
    && Trace(rs, next, ports)
    && (forall i :: 0 <= i < |rs| ==> rs[i].layer < layers)
    && (forall l: nat :: l < layers ==> LayerDelivered(rs, l, terminals, work))
    && Requests(rs) == Times(layers, work.Total())
  }

  lemma {:induction false} LayerAdds(rs: seq<Record>, part: seq<Record>, next: int, next2: int, layer: nat, terminals: int, work: Buckets, ports: bool)
    requires Built(rs, next, layer, terminals, work, ports) && Extended(rs, part, next, next2, layer, ports)
    requires Delivered(part) && |Collected(part)| == terminals && WorkOf(part) == work && Requests(part) == work.Total()
    ensures Built(rs + part, next2, layer + 1, terminals, work, ports)
  {
    forall l: nat | l < layer + 1
      ensures LayerDelivered(rs + part, l, terminals, work)
    {
      assert l < layer ==> LayerDelivered(rs, l, terminals, work);
      LayerKept(rs, part, layer, l, terminals, work);
    }
    PartAdds(rs, part, layer, work);
  }

  lemma {:induction false} PartAdds(rs: seq<Record>, part: seq<Record>, layer: nat, work: Buckets)
    requires Requests(rs) == Times(layer, work.Total()) && Requests(part) == work.Total()
    ensures Requests(rs + part) == Times(layer + 1, work.Total())
  {
    TotalConcat(MacRequests, rs, part);
  }

  lemma {:induction false} LayerKept(rs: seq<Record>, part: seq<Record>, layer: nat, l: nat, terminals: int, work: Buckets)
    requires forall i :: 0 <= i < |rs| ==> rs[i].layer < layer
    requires forall i :: 0 <= i < |part| ==> part[i].layer == layer
    requires l < layer ==> LayerDelivered(rs, l, terminals, work)
    requires l <= layer && Delivered(part) && |Collected(part)| == terminals && WorkOf(part) == work
    ensures LayerDelivered(rs + part, l, terminals, work)
  {
    if l == layer {
      NewLayer(rs, part, l);
    } else {
      OldLayer(rs, part, layer, l);
    }
  }

  lemma {:induction false} NewLayer(rs: seq<Record>, part: seq<Record>, l: nat)
    requires forall i :: 0 <= i < |rs| ==> rs[i].layer < l
    requires forall i :: 0 <= i < |part| ==> part[i].layer == l
    ensures OfLayer(rs + part, l) == part
  {
    OfLayerConcat(rs, part, l);
    OfOneLayer(part, l, l);
    EmptyLayer(rs, l);
  }

  lemma {:induction false} OldLayer(rs: seq<Record>, part: seq<Record>, own: nat, l: nat)
    requires forall i :: 0 <= i < |part| ==> part[i].layer == own
    requires l != own
    ensures OfLayer(rs + part, l) == OfLayer(rs, l)
  {
    OfLayerConcat(rs, part, l);
    OfOneLayer(part, own, l);
  }

  lemma {:induction false} EmptyLayer(rs: seq<Record>, l: nat)
    requires forall i :: 0 <= i < |rs| ==> rs[i].layer < l
    ensures OfLayer(rs, l) == []
    decreases |rs|
  {
    if rs != [] {
      EmptyLayer(rs[..|rs| - 1], l);
    }
  }

  // ---- a finished trace ----

  /** What every finished trace satisfies: an ordered graph; every layer's results
      delivered; `requests` MAC requests in each layer. */
  ghost predicate Complete(rs: seq<Record>, layers: int, terminals: int, work: Buckets, ports: bool) {
    && Sound(map[], rs, ports) && IdsIncrease(rs)
    && (forall l: nat :: l < layers ==> LayerDelivered(rs, l, terminals, work))
    && Requests(rs) == Max(0, layers) * work.Total()
  }

  lemma {:induction false} DrainKeepsResults(rs: seq<Record>, drain: seq<Record>, l: nat, terminals: int, work: Buckets, own: nat)
    requires LayerDelivered(rs, l, terminals, work) && Quiet(drain) && Idle(drain)
    requires forall i :: 0 <= i < |drain| ==> drain[i].layer == own
    ensures LayerDelivered(rs + drain, l, terminals, work)
  {
    OfLayerConcat(rs, drain, l);
    OfOneLayer(drain, own, l);
    FoldsConcat(OfLayer(rs, l), OfLayer(drain, l));
    QuietFolds(OfLayer(drain, l));
    WorkConcat(OfLayer(rs, l), OfLayer(drain, l));
    IdleWork(OfLayer(drain, l));
    var kept := OfLayer(rs, l);
    assert Consumed(kept) + [] == Consumed(kept) && Contexts(kept) + [] == Contexts(kept);
    assert Reductions(kept) + [] == Reductions(kept) && Collected(kept) + [] == Collected(kept);
  }

  lemma {:induction false} IdleWork(rs: seq<Record>)
    requires Idle(rs)
    ensures WorkOf(rs) == Buckets(0, 0, 0, 0)
    decreases |rs|
  {
    if rs != [] {
      IdleWork(rs[..|rs| - 1]);
    }
  }

  /** The final drain record. */
  method Finish(rs: seq<Record>, next: int, layers: int, ghost terminals: int, ghost work: Buckets, ghost parts: set<Part>, ghost t: LayerTail,
                ghost decode: bool, ghost ports: bool)
      returns (out: seq<Record>)
    requires Built(rs, next, Max(0, layers), terminals, work, ports) && Computing(rs, layers, parts, t, decode)
    ensures Complete(out, layers, terminals, work, ports) && Computing(out, layers, parts, t, decode)
  {
    var last: nat := Max(0, layers - 1);
    var drain, next2 := AddMarker(rs, next, last, Drain, FinalDrain, ports);
    out := rs + drain;
    forall l: nat | l < layers
      ensures LayerDelivered(out, l, terminals, work)
    {
      DrainKeepsResults(rs, drain, l, terminals, work, last);
    }
    ComputingMore(rs, drain, layers, parts, t, decode);
    SoundIncreases(out, ports);
    TotalConcat(MacRequests, rs, drain);
    TimesIsProduct(Max(0, layers), work.Total());
  }

  // ---- one layer ----

  /** Parts of a layer in order: before attention, attention, output projection, the
      block after it, and the closing barrier. */
  lemma {:induction false} LayerJoins(rs: seq<Record>, before: seq<Record>, attention: seq<Record>, out: seq<Record>, after: seq<Record>,
                   n0: int, n1: int, n2: int, n3: int, n4: int, layer: nat, requests: int, terminals: int, tiles: bool, ports: bool)
    requires Extended(rs, before, n0, n1, layer, ports) && Quiet(before) && Pure(before, QkvoBucket)
    requires AttentionPart(rs + before, attention, n1, n2, layer, requests, terminals, ports)
    requires Extended(rs + before + attention, out, n2, n3, layer, ports)
    requires |out| == 1 && out[0].op == OProjection && out[0].kind == FFNProjection && out[0].deps == TerminalIds(attention)
    requires Extended(rs + before + attention + out, after, n3, n4, layer, ports) && Quiet(after) && Pure(after, TailBucket(tiles))
    ensures var part := before + attention + out + after;
      && Extended(rs, part, n0, n4, layer, ports) && Delivered(part) && |Collected(part)| == terminals
      && WorkOf(part) == PartBuckets(Requests(before) + Requests(out), requests, Requests(after), tiles)
      && Requests(part) == WorkOf(part).Total()
  {
    LayerExtends(rs, before, attention, out, after, n0, n1, n2, n3, n4, layer, ports);
    LayerDelivers(before, attention, out, after);
    LayerWorks(before, attention, out, after, tiles);
  }

  /** Each part of a layer works for one bucket. */
  lemma {:induction false} LayerWorks(before: seq<Record>, attention: seq<Record>, out: seq<Record>, after: seq<Record>, tiles: bool)
    requires Pure(before, QkvoBucket) && ResultsPlain(attention) && Pure(after, TailBucket(tiles))
    requires |out| == 1 && out[0].op == OProjection && out[0].kind == FFNProjection
    ensures WorkOf(before + attention + out + after)
         == PartBuckets(Requests(before) + Requests(out), Requests(attention), Requests(after), tiles)
  {
    PureWork(before, QkvoBucket);
    PureWork(attention, AttentionBucket);
    PureWork(out, QkvoBucket);
    PureWork(after, TailBucket(tiles));
    WorkConcat(before, attention);
    WorkConcat(before + attention, out);
    WorkConcat(before + attention + out, after);
  }

  lemma {:induction false} LayerExtends(rs: seq<Record>, before: seq<Record>, attention: seq<Record>, out: seq<Record>, after: seq<Record>,
                     n0: int, n1: int, n2: int, n3: int, n4: int, layer: nat, ports: bool)
    requires Extended(rs, before, n0, n1, layer, ports) && Extended(rs + before, attention, n1, n2, layer, ports)
    requires Extended(rs + before + attention, out, n2, n3, layer, ports)
    requires Extended(rs + before + attention + out, after, n3, n4, layer, ports)
    ensures Extended(rs, before + attention + out + after, n0, n4, layer, ports)
  {
    ExtendTwice(rs, before, attention, n0, n1, n2, layer, ports);
    assert rs + before + attention == rs + (before + attention);
    ExtendTwice(rs, before + attention, out, n0, n2, n3, layer, ports);
    assert rs + (before + attention) + out == rs + (before + attention + out);
    ExtendTwice(rs, before + attention + out, after, n0, n3, n4, layer, ports);
  }

  /** The block after attention and the closing barrier. */
  method CloseLayer(ghost rs: seq<Record>, block: seq<Record>, op: Op, next: int, layer: nat, o: int, ghost t: LayerTail, ghost ports: bool)
      returns (part: seq<Record>, next2: int, ghost tail: seq<Record>)
    requires Trace(rs, next, ports) && QuietBlock(block, Scope(1, t.DenseTail?)) && op == t.InputOp()
    requires Has(rs, o, Tensor(layer, AttentionOutput))
    ensures Extended(rs, part, next, next2, layer, ports) && Quiet(part) && Requests(part) == Requests(block)
    ensures Pure(part, TailBucket(t.DenseTail?))
    ensures tail <= part && TailPlaced(block, tail, next, layer, o, t)
  {
    var placed, n1 := AddTail(rs, block, op, next, layer, o, t.DenseTail?, ports);
    tail := placed;
    var barrier;
    barrier, next2 := AddMarker(rs + tail, n1, layer, Barrier, LayerTransition, ports);
    part := placed + barrier;
    ExtendTwice(rs, tail, barrier, next, n1, next2, layer, ports);
    QuietConcat(tail, barrier);
  }

  /** What follows attention: the output projection, the block after it and the barrier. */
  ghost predicate Follow(rs: seq<Record>, placed: seq<Record>, out: seq<Record>, after: seq<Record>, linked: seq<Record>, tail: seq<Record>,
                         n2: int, n3: int, next2: int, layer: nat, t: LayerTail, ports: bool) {
    && Extended(rs + placed, out, n2, n3, layer, ports) && Extended(rs + placed + out, after, n3, next2, layer, ports)
    && |out| == 1 && Gathers(placed, out[0], layer) && out[0].id == n2 < n3
    && Quiet(after) && Pure(after, TailBucket(t.DenseTail?)) && Requests(after) == Requests(tail)
    && linked <= after && TailPlaced(tail, linked, n3, layer, out[0].id, t)
  }

  method FollowAttention(ghost rs: seq<Record>, placed: seq<Record>, ghost n1: int, n2: int, layer: nat, d: Dims, tail: seq<Record>, op: Op,
                         ghost requests: int, ghost terminals: int, ghost t: LayerTail, ghost ports: bool)
      returns (out: seq<Record>, after: seq<Record>, ghost linked: seq<Record>, ghost n3: int, next2: int)
    requires AttentionPart(rs, placed, n1, n2, layer, requests, terminals, ports)
    requires QuietBlock(tail, Scope(1, t.DenseTail?)) && op == t.InputOp()
    ensures Follow(rs, placed, out, after, linked, tail, n2, n3, next2, layer, t, ports)
    ensures Requests(out) == Work(d, d.hidden, d.oDim)
  {
    var next3, o;
    out, next3, o := AddOutput(rs, placed, n1, n2, layer, d, requests, terminals, ports);
    n3 := next3;
    after, next2, linked := CloseLayer(rs + placed + out, tail, op, next3, layer, o, t, ports);
  }

  /** A whole layer, for attention that is in place. */
  method CompleteLayer(ghost rs: seq<Record>, before: seq<Record>, placed: seq<Record>, ghost next: int, ghost n1: int, n2: int, layer: nat,
                       d: Dims, tail: seq<Record>, op: Op, ghost requests: int, ghost terminals: int, ghost parts: set<Part>, ghost end: int,
                       ghost t: LayerTail, ghost ports: bool)
      returns (part: seq<Record>, next2: int, ghost rest: seq<Record>)
    requires Extended(rs, before, next, n1, layer, ports) && Quiet(before) && Pure(before, QkvoBucket)
    requires Requests(before) == QkvRequests(d)
    requires AttentionPart(rs + before, placed, n1, n2, layer, requests, terminals, ports)
    requires Attends(rs + before + placed, placed, layer, parts) && EndsApart(parts)
    requires TailComputes(tail, end, t) && op == t.InputOp()
    ensures Extended(rs, part, next, next2, layer, ports) && Delivered(part) && |Collected(part)| == terminals
    ensures WorkOf(part) == LayerBuckets(d, requests, Requests(tail), t.DenseTail?) && Requests(part) == WorkOf(part).Total()
    ensures LayerComputes(rs + part, layer, parts, t)
    ensures part == before + placed + rest && NoReads(rest)
  {
    var out, after;
    ghost var linked, n3;
    out, after, linked, n3, next2 := FollowAttention(rs + before, placed, n1, n2, layer, d, tail, op, requests, terminals, t, ports);
    rest := out + after;
    part := before + placed + out + after;
    FollowReadsNothing(out, after);
    Regrouped(before, placed, out, after);
    FollowJoins(rs, before, placed, out, after, linked, tail, next, n1, n2, n3, next2, layer, requests, terminals, t, ports);
    LayerConcluded(rs, before, placed, out, after, linked, tail, layer, parts, t, end, n2, n3, next2, ports);
  }

  lemma {:induction false} FollowJoins(rs: seq<Record>, before: seq<Record>, placed: seq<Record>, out: seq<Record>, after: seq<Record>,
                                       linked: seq<Record>, tail: seq<Record>, next: int, n1: int, n2: int, n3: int, next2: int, layer: nat,
                                       requests: int, terminals: int, t: LayerTail, ports: bool)
    requires Extended(rs, before, next, n1, layer, ports) && Quiet(before) && Pure(before, QkvoBucket)
    requires AttentionPart(rs + before, placed, n1, n2, layer, requests, terminals, ports)
    requires Follow(rs + before, placed, out, after, linked, tail, n2, n3, next2, layer, t, ports)
    ensures var part := before + placed + out + after;
      && Extended(rs, part, next, next2, layer, ports) && Delivered(part) && |Collected(part)| == terminals
      && WorkOf(part) == PartBuckets(Requests(before) + Requests(out), requests, Requests(tail), t.DenseTail?)
      && Requests(part) == WorkOf(part).Total()
  {
    LayerJoins(rs, before, placed, out, after, next, n1, n2, n3, next2, layer, requests, terminals, t.DenseTail?, ports);
  }

  lemma {:induction false} FollowReadsNothing(out: seq<Record>, after: seq<Record>)
    requires |out| == 1 && out[0].op.OProjection? && Quiet(after)
    ensures NoReads(out + after)
  {
  }

  lemma {:induction false} Regrouped(a: seq<Record>, b: seq<Record>, c: seq<Record>, d: seq<Record>)
    ensures a + b + c + d == a + b + (c + d)
  {
  }

  lemma {:induction false} LayerPrefix(rs: seq<Record>, before: seq<Record>, placed: seq<Record>, out: seq<Record>, after: seq<Record>,
                                       linked: seq<Record>)
    requires linked <= after
    ensures rs + before + placed + out + linked <= rs + (before + placed + out + after)
  {
  }

  /** The parts of a layer in order compute what the layer computes. */
  lemma {:induction false} LayerConcluded(rs: seq<Record>, before: seq<Record>, placed: seq<Record>, out: seq<Record>, after: seq<Record>,
                                          linked: seq<Record>, tail: seq<Record>, layer: nat, parts: set<Part>, t: LayerTail, end: int, n2: int,
                                          n3: int, next2: int, ports: bool)
    requires Trace(rs + before + placed, n2, ports) && Attends(rs + before + placed, placed, layer, parts) && EndsApart(parts)
    requires Follow(rs + before, placed, out, after, linked, tail, n2, n3, next2, layer, t, ports) && TailComputes(tail, end, t)
    ensures LayerComputes(rs + (before + placed + out + after), layer, parts, t)
  {
    assert out == [out[0]];
    LayerConcludes(rs + before, placed, out[0], tail, linked, layer, parts, t, end, n2, n3, ports);
    LayerPrefix(rs, before, placed, out, after, linked);
    LayerComputesMore(rs + before + placed + out + linked, rs + (before + placed + out + after), layer, parts, t);
  }

  /** A layer given its two generated blocks. */
  method DecodeLayer(ghost rs: seq<Record>, next: int, layer: nat, d: Dims, attention: seq<Record>, tail: seq<Record>, op: Op,
                     ghost open: bool, ghost parts: set<Part>, ghost end: int, ghost t: LayerTail, ghost ports: bool)
      returns (part: seq<Record>, next2: int)
    requires Trace(rs, next, ports)
    requires AttentionBlock(attention, Scope(1, open)) && attention != [] && (open ==> ports)
    requires if open then parts == {} else BlockAttends(attention, parts) && EndsApart(parts) && forall p <- parts :: p.query.None?
    requires TailComputes(tail, end, t) && op == t.InputOp()
    ensures Extended(rs, part, next, next2, layer, ports) && Delivered(part) && |Collected(part)| == Terminals(attention)
    ensures WorkOf(part) == LayerBuckets(d, Requests(attention), Requests(tail), t.DenseTail?) && Requests(part) == WorkOf(part).Total()
    ensures LayerComputes(rs + part, layer, parts, t) && ReadsAppended(rs + part, |rs|, layer)
  {
    var before, n1, q, k, v, keyWrite, valueWrite := Prelude(rs, next, layer, d, false, ports);
    var placed, n2 := AddDecodeAttention(rs + before, attention, n1, layer, q, keyWrite, valueWrite, open, ports);
    if !open {
      DecodeAttends(rs + before, attention, n1, layer, q, keyWrite, valueWrite, parts);
    }
    ghost var rest;
    part, next2, rest := CompleteLayer(rs, before, placed, next, n1, n2, layer, d, tail, op, Requests(attention), Terminals(attention),
                                       parts, end, t, ports);
    DecodeReadsAppended(rs, before, attention, open, placed, rest, n1, layer, q, k, v, keyWrite, valueWrite);
  }

  method PrefillLayer(ghost rs: seq<Record>, next: int, layer: nat, d: Dims, attention: seq<Record>, tail: seq<Record>, ghost parts: set<Part>,
                      ghost end: int, ghost t: LayerTail)
      returns (part: seq<Record>, next2: int)
    requires Trace(rs, next, false)
    requires AttentionBlock(attention, Scope(1, true)) && attention != [] && BlockAttends(attention, parts) && EndsApart(parts)
    requires TailComputes(tail, end, t) && t.DenseTail?
    ensures Extended(rs, part, next, next2, layer, false) && Delivered(part) && |Collected(part)| == Terminals(attention)
    ensures WorkOf(part) == LayerBuckets(d, Requests(attention), Requests(tail), true) && Requests(part) == WorkOf(part).Total()
    ensures LayerComputes(rs + part, layer, parts, t)
  {
    var before, n1, q, k, v, keyWrite, valueWrite := Prelude(rs, next, layer, d, true, false);
    var placed, n2 := AddPrefillAttention(rs + before, attention, n1, layer, q, k, v);
    PromptAttends(rs + before, attention, placed, n1, layer, q, k, v, parts);
    ghost var rest;
    part, next2, rest := CompleteLayer(rs, before, placed, next, n1, n2, layer, d, tail, HiddenTileSetup,
                                       Requests(attention), Terminals(attention), parts, end, t, false);
  }

  // ---- the generators ----

  /** `generate_attention_records`: dispatch on the phase. */
  method GenerateAttention(m: AttentionManifest) returns (r: Result<seq<Record>>)
    ensures r.Ok? <==> ValidAttention(m)
    ensures r.Ok? ==>
      && AttentionBlock(r.value, Scope(m.layers, m.phase.Prefill?)) && r.value != []
      && Requests(r.value) == m.layers * (m.heads * AttentionWork(m))
      && Terminals(r.value) == m.layers * (m.heads * QueryGroups(m))
      && BlockAttends(r.value, DecodeParts(m))
  {
    if m.phase.Prefill? {
      r := GeneratePrefillAttention(m);
    } else {
      r := GenerateDecodeAttention(m);
      if r.Ok? {
        DecodeBlockAttends(r.value, m);
      }
    }
  }

  /** MAC requests of one head. */
  function AttentionWork(m: AttentionManifest): int {
    if m.scoreTile <= 0 || m.contextTile <= 0 then 0
    else if m.phase.Prefill? then HeadWork(QueryTiles(m), KeyTiles(m), m)
    else 2 * Sum(DecodeWork(m))
  }

  /** Query tiles of one head: a decode step has a single query. */
  function QueryGroups(m: AttentionManifest): int {
    if m.phase.Prefill? && m.scoreTile > 0 then |QueryTiles(m)| else 1
  }

  method GenerateTail(t: LayerTail) returns (r: Result<seq<Record>>, ghost end: int)
    requires if t.DenseTail? then t.ffn.layers == 1 else t.moe.layers == 1
    ensures r.Ok? <==> t.Valid()
    ensures r.Ok? ==> TailComputes(r.value, end, t) && Requests(r.value) == t.Requests()
  {
    match t
    case DenseTail(f) =>
      ghost var ends;
      r, ends := GenerateFfn(f);
      end := if r.Ok? then ends[0] else 0;
      Once(f.layers, ProjectionCount(f.variant) * ProjectionRequests(f));
    case ExpertTail(m) =>
      ghost var ends;
      r, ends := GenerateMoe(m);
      end := if r.Ok? then ends[0] else 0;
      Once(m.layers, MoeLayerRequests(m));
  }

  function DecodeLayerWork(one: AttentionManifest, tail: LayerTail, d: Dims): Buckets {
    LayerBuckets(d, one.heads * AttentionWork(one), tail.Requests(), tail.DenseTail?)
  }

  function DecodeTerminals(one: AttentionManifest): int {
    one.heads * QueryGroups(one)
  }

  /** One iteration of the layer loop: generate both blocks and assemble the layer. */
  method NextDecodeLayer(ghost rs: seq<Record>, next: int, layer: nat, one: AttentionManifest, tail: LayerTail, d: Dims)
      returns (r: Result<(seq<Record>, int)>)
    requires Trace(rs, next, one.phase.Prefill?) && one.layers == 1
    requires if tail.DenseTail? then tail.ffn.layers == 1 else tail.moe.layers == 1
    ensures r.Ok? <==> ValidAttention(one) && tail.Valid()
    ensures r.Ok? ==>
      && Extended(rs, r.value.0, next, r.value.1, layer, one.phase.Prefill?) && Delivered(r.value.0)
      && |Collected(r.value.0)| == DecodeTerminals(one) && WorkOf(r.value.0) == DecodeLayerWork(one, tail, d)
      && Requests(r.value.0) == WorkOf(r.value.0).Total()
      && LayerComputes(rs + r.value.0, layer, DecodeParts(one), tail) && ReadsAppended(rs + r.value.0, |rs|, layer)
  {
    var attention :- GenerateAttention(one);
    var generated, end := GenerateTail(tail);
    var block :- generated;
    DecodeEndsApart(one);
    Once(one.layers, one.heads * AttentionWork(one));
    Once(one.layers, one.heads * QueryGroups(one));
    var part, next2 := DecodeLayer(rs, next, layer, d, attention, block, tail.InputOp(),
      one.phase.Prefill?, DecodeParts(one), end, tail, one.phase.Prefill?);
    r := Ok((part, next2));
  }

  /** The layer loop shared by the dense and the mixture-of-experts decode traces. */
  method DecodeLayers(one: AttentionManifest, tail: LayerTail, d: Dims, layers: int) returns (r: Result<seq<Record>>)
    requires one.layers == 1
    requires if tail.DenseTail? then tail.ffn.layers == 1 else tail.moe.layers == 1
    ensures r.Ok? <==> (layers > 0 ==> ValidAttention(one) && tail.Valid())
    ensures r.Ok? ==>
      && Complete(r.value, layers, DecodeTerminals(one), DecodeLayerWork(one, tail, d), one.phase.Prefill?)
      && Computing(r.value, layers, DecodeParts(one), tail, true)
  {
    var combined: seq<Record>, next := [], 0;
    ghost var ports, terminals, work := one.phase.Prefill?, DecodeTerminals(one), DecodeLayerWork(one, tail, d);
    for layer := 0 to Max(0, layers)
      invariant Built(combined, next, layer, terminals, work, ports) && Computing(combined, layer, DecodeParts(one), tail, true)
      invariant layer > 0 ==> ValidAttention(one) && tail.Valid()
    {
      var out := NextDecodeLayer(combined, next, layer, one, tail, d);
      if out.Err? {
        return Err(out.error);
      }
      LayerAdds(combined, out.value.0, next, out.value.1, layer, terminals, work, ports);
      ComputingNext(combined, out.value.0, layer, DecodeParts(one), tail, true);
      combined, next := combined + out.value.0, out.value.1;
    }
    combined := Finish(combined, next, layers, terminals, work, DecodeParts(one), tail, true, ports);
    r := Ok(combined);
  }

  /** `_validate_dense_decode_v2_supported_manifests`. */
  predicate DenseSupported(a: AttentionManifest, f: FfnManifest) {
    ValidHeads(a) && a.heads * a.headDim > 0 && f.hiddenSize == a.hiddenSize && a.datatyp == f.datatyp
  }

  /** Limiting a manifest to one layer changes neither its validity nor the work and
      results of a layer. */
  lemma {:induction false} OneLayerDecode(a: AttentionManifest)
    ensures a.layers > 0 ==> (ValidAttention(a.(layers := 1)) <==> ValidAttention(a))
    ensures AttentionWork(a.(layers := 1)) == AttentionWork(a)
    ensures DecodeTerminals(a.(layers := 1)) == DecodeTerminals(a)
  {
    if a.scoreTile > 0 && a.contextTile > 0 {
      HeadWorkIgnoresLayers(QueryTiles(a), KeyTiles(a), a);
      assert DecodeWork(a.(layers := 1)) == DecodeWork(a);
    }
  }

  lemma {:induction false} OneLayerWork(a: AttentionManifest, tail: LayerTail, one: LayerTail, d: Dims)
    requires AttentionWork(a.(layers := 1)) == AttentionWork(a)
    requires if tail.DenseTail? then one == DenseTail(tail.ffn.(layers := 1)) else one == ExpertTail(tail.moe.(layers := 1))
    ensures DecodeLayerWork(a.(layers := 1), one, d) == DecodeLayerWork(a, tail, d)
  {
    assert one.Requests() == tail.Requests();
  }

  /** Nor does the limit change what the layers compute. */
  lemma {:induction false} OneLayerComputes(rs: seq<Record>, layers: int, parts: set<Part>, one: LayerTail, tail: LayerTail, decode: bool)
    requires Computing(rs, layers, parts, one, decode)
    requires if tail.DenseTail? then one == DenseTail(tail.ffn.(layers := 1)) else one == ExpertTail(tail.moe.(layers := 1))
    ensures Computing(rs, layers, parts, tail, decode)
  {
    forall l: nat | l < layers
      ensures LayerComputes(rs, l, parts, tail) && (decode ==> CacheCurrent(rs, l))
    {
      assert LayerComputes(rs, l, parts, one);
      var o, end, args :| Collects(rs, o, l, parts, args) && Concludes(rs, o, end, l, one, OutputMath(args));
      assert Concludes(rs, o, end, l, tail, OutputMath(args));
    }
  }

  /** `generate_dense_transformer_layer_records`. */
  method GenerateDenseDecode(a: AttentionManifest, f: FfnManifest) returns (r: Result<seq<Record>>)
    ensures r.Ok? <==>
      DenseSupported(a, f) && f.layers == a.layers && (a.layers > 0 ==> ValidAttention(a) && ValidFfn(f))
    ensures r.Ok? ==>
      && Complete(r.value, a.layers, DecodeTerminals(a), DecodeLayerWork(a, DenseTail(f), DenseDims(a, f)), a.phase.Prefill?)
      && Computing(r.value, a.layers, DecodeParts(a), DenseTail(f), true)
  {
    if !DenseSupported(a, f) || f.layers != a.layers {
      return Err(BadArgument);
    }
    OneLayerDecode(a);
    OneLayerWork(a, DenseTail(f), DenseTail(f.(layers := 1)), DenseDims(a, f));
    r := DecodeLayers(a.(layers := 1), DenseTail(f.(layers := 1)), DenseDims(a, f), a.layers);
    if r.Ok? {
      OneLayerComputes(r.value, a.layers, DecodeParts(a), DenseTail(f.(layers := 1)), DenseTail(f), true);
    }
  }

  /** The attention projections of a mixture-of-experts layer take their Q and O widths
      from the hidden size. */
  function ExpertDims(a: AttentionManifest, m: MoeManifest): Dims {
    Dims(m.seqLen, m.hiddenSize, m.datatyp, m.hiddenSize, a.kvHeads * a.headDim, m.hiddenSize)
  }

  /** `generate_moe_transformer_layer_records`. */
  method GenerateMoeDecode(a: AttentionManifest, m: MoeManifest) returns (r: Result<seq<Record>>)
    ensures r.Ok? <==>
      && ValidHeads(a) && a.heads * a.headDim > 0 && m.hiddenSize == a.hiddenSize && a.datatyp == m.datatyp
      && m.layers == a.layers && (a.layers > 0 ==> ValidAttention(a) && ValidMoe(m))
    ensures r.Ok? ==>
      && Complete(r.value, a.layers, DecodeTerminals(a), DecodeLayerWork(a, ExpertTail(m), ExpertDims(a, m)), a.phase.Prefill?)
      && Computing(r.value, a.layers, DecodeParts(a), ExpertTail(m), true)
  {
    if !(ValidHeads(a) && a.heads * a.headDim > 0 && m.hiddenSize == a.hiddenSize && a.datatyp == m.datatyp) || m.layers != a.layers {
      return Err(BadArgument);
    }
    OneLayerDecode(a);
    OneLayerWork(a, ExpertTail(m), ExpertTail(m.(layers := 1)), ExpertDims(a, m));
    r := DecodeLayers(a.(layers := 1), ExpertTail(m.(layers := 1)), ExpertDims(a, m), a.layers);
    if r.Ok? {
      OneLayerComputes(r.value, a.layers, DecodeParts(a), ExpertTail(m.(layers := 1)), ExpertTail(m), true);
    }
  }

  /** `_validate_dense_prefill_supported_manifests`. */
  predicate PrefillSupported(a: AttentionManifest, f: FfnManifest) {
    ValidAttention(a) && ValidFfn(f) && a.phase.Prefill? && f.phase.Prefill? && DenseSupported(a, f) && a.seqLen == f.seqLen
  }

  /** One prefill layer.  Both blocks were validated, so neither generator raises. */
  method NextPrefillLayer(ghost rs: seq<Record>, next: int, layer: nat, one: AttentionManifest, f: FfnManifest)
      returns (part: seq<Record>, next2: int)
    requires Trace(rs, next, false) && one.layers == 1 && f.layers == 1 && ValidAttention(one) && ValidFfn(f) && one.phase.Prefill?
    ensures Extended(rs, part, next, next2, layer, false) && Delivered(part)
    ensures |Collected(part)| == one.heads * |QueryTiles(one)|
    ensures WorkOf(part) == PrefillLayerBuckets(one, f) && Requests(part) == WorkOf(part).Total()
    ensures LayerComputes(rs + part, layer, PromptParts(one), DenseTail(f))
  {
    var attention := GeneratePrefillAttention(one);
    PromptBlockAttends(attention.value, one);
    PromptEndsApart(one);
    var ffn;
    ghost var ends;
    ffn, ends := GenerateFfn(f);
    Once(one.layers, one.heads * HeadWork(QueryTiles(one), KeyTiles(one), one));
    Once(one.layers, one.heads * |QueryTiles(one)|);
    Once(f.layers, ProjectionCount(f.variant) * ProjectionRequests(f));
    part, next2 := PrefillLayer(rs, next, layer, DenseDims(one, f), attention.value, ffn.value, PromptParts(one), ends[0], DenseTail(f));
  }

  lemma {:induction false} Once(n: int, each: int)
    requires n == 1
    ensures n * each == each
  {
  }

  /** The prefill layer loop. */
  method PrefillLayers(one: AttentionManifest, f: FfnManifest, layers: int) returns (rs: seq<Record>)
    requires one.layers == 1 && f.layers == 1 && ValidAttention(one) && ValidFfn(f) && one.phase.Prefill?
    ensures Complete(rs, layers, one.heads * |QueryTiles(one)|, PrefillLayerBuckets(one, f), false)
    ensures Computing(rs, layers, PromptParts(one), DenseTail(f), false)
  {
    var next := 0;
    rs := [];
    ghost var terminals, work := one.heads * |QueryTiles(one)|, PrefillLayerBuckets(one, f);
    for layer := 0 to Max(0, layers)
      invariant Built(rs, next, layer, terminals, work, false) && Computing(rs, layer, PromptParts(one), DenseTail(f), false)
    {
      var part, next2 := NextPrefillLayer(rs, next, layer, one, f);
      LayerAdds(rs, part, next, next2, layer, terminals, work, false);
      ComputingNext(rs, part, layer, PromptParts(one), DenseTail(f), false);
      rs, next := rs + part, next2;
    }
    rs := Finish(rs, next, layers, terminals, work, PromptParts(one), DenseTail(f), false, false);
  }

  /** `generate_dense_prefill_transformer_layer_records`. */
  method GenerateDensePrefill(a: AttentionManifest, f: FfnManifest) returns (r: Result<seq<Record>>)
    ensures r.Ok? <==> PrefillSupported(a, f) && f.layers == a.layers
    ensures r.Ok? ==>
      && Complete(r.value, a.layers, a.heads * |QueryTiles(a)|, PrefillLayerBuckets(a, f), false)
      && Computing(r.value, a.layers, PromptParts(a), DenseTail(f), false)
  {
    if !PrefillSupported(a, f) || f.layers != a.layers {
      return Err(BadArgument);
    }
    OneLayerPrefillWork(a, f);
    var combined := PrefillLayers(a.(layers := 1), f.(layers := 1), a.layers);
    OneLayerComputes(combined, a.layers, PromptParts(a), DenseTail(f.(layers := 1)), DenseTail(f), false);
    r := Ok(combined);
  }

  lemma {:induction false} VisibleWorkIgnoresLayers(q: Range, keys: seq<Range>, m: AttentionManifest)
    ensures VisibleWork(q, keys, m.(layers := 1)) == VisibleWork(q, keys, m)
    decreases |keys|
  {
    if keys != [] {
      VisibleWorkIgnoresLayers(q, keys[..|keys| - 1], m);
    }
  }

  lemma {:induction false} HeadWorkIgnoresLayers(queries: seq<Range>, keys: seq<Range>, m: AttentionManifest)
    ensures HeadWork(queries, keys, m.(layers := 1)) == HeadWork(queries, keys, m)
    decreases |queries|
  {
    if queries != [] {
      VisibleWorkIgnoresLayers(queries[0], keys, m);
      HeadWorkIgnoresLayers(queries[1..], keys, m);
    }
  }

  lemma {:induction false} OneLayerPrefillWork(a: AttentionManifest, f: FfnManifest)
    requires a.scoreTile > 0 && a.contextTile > 0
    ensures PrefillLayerBuckets(a.(layers := 1), f.(layers := 1)) == PrefillLayerBuckets(a, f)
    ensures QueryTiles(a.(layers := 1)) == QueryTiles(a)
  {
    HeadWorkIgnoresLayers(QueryTiles(a), KeyTiles(a), a);
  }

  // ---- what a finished trace guarantees ----

  /** Every finished trace is a topologically ordered graph with unique ids; when every
      port was connected, its edges carry the data. */
  lemma {:induction false} CompleteTraceIsOrderedGraph(rs: seq<Record>, layers: int, terminals: int, work: Buckets, ports: bool)
    requires Complete(rs, layers, terminals, work, ports)
    ensures IdsIncrease(rs) && DepsEarlier(rs)
    ensures !ports ==> InputsProduced(rs)
  {
    SoundTraceIsOrdered(rs, ports);
    if !ports {
      SoundTraceCarriesData(rs);
    }
  }

  lemma {:induction false} OfLayerFrom(rs: seq<Record>, l: nat)
    ensures forall i :: 0 <= i < |OfLayer(rs, l)| ==> OfLayer(rs, l)[i] in rs
    decreases |rs|
  {
    if rs != [] {
      OfLayerFrom(rs[..|rs| - 1], l);
    }
  }

  lemma {:induction false} OfLayerIncreases(rs: seq<Record>, l: nat)
    requires IdsIncrease(rs)
    ensures IdsIncrease(OfLayer(rs, l))
    decreases |rs|
  {
    if rs != [] {
      var n := |rs| - 1;
      OfLayerIncreases(rs[..n], l);
      OfLayerFrom(rs[..n], l);
      forall i | 0 <= i < |OfLayer(rs[..n], l)| ensures OfLayer(rs[..n], l)[i].id < rs[n].id {
        var k :| 0 <= k < n && rs[..n][k] == OfLayer(rs[..n], l)[i];
      }
    }
  }

  /** In every layer of a finished trace, each AttentionContext is read by exactly one
      of the layer's reductions and output projection, counting multiplicity. */
  lemma {:induction false} AttentionDeliveredOnce(rs: seq<Record>, layers: int, terminals: int, work: Buckets, ports: bool, l: nat, c: int)
    requires Complete(rs, layers, terminals, work, ports) && l < layers
    requires c in Contexts(OfLayer(rs, l))
    ensures multiset(Consumed(OfLayer(rs, l)))[c] + multiset(Collected(OfLayer(rs, l)))[c] == 1
  {
    assert LayerDelivered(rs, l, terminals, work);
    OfLayerIncreases(rs, l);
    DeliveredOnce(OfLayer(rs, l), c);
  }

  /** The closed form predicts, bucket by bucket, the MAC requests of every layer of the
      generated prefill trace, and so its total. */
  lemma {:induction false} PredictionMatchesTrace(s: ModelSpec, prompt: int, activationTile: int, rs: seq<Record>, terminals: int)
    requires PrefillSupported(AttentionManifestOf(s, prompt), FfnManifestOf(s, prompt, activationTile))
    requires Complete(rs, s.layers, terminals,
                      PrefillLayerBuckets(AttentionManifestOf(s, prompt), FfnManifestOf(s, prompt, activationTile)), false)
    ensures forall l: nat :: l < s.layers ==> WorkOf(OfLayer(rs, l)) == Prediction(s, prompt)
    ensures Requests(rs) == s.layers * Prediction(s, prompt).Total()
  {
    PredictionMatchesLayer(s, prompt, activationTile);
    forall l: nat | l < s.layers
      ensures WorkOf(OfLayer(rs, l)) == Prediction(s, prompt)
    {
      assert LayerDelivered(rs, l, terminals, PrefillLayerBuckets(AttentionManifestOf(s, prompt), FfnManifestOf(s, prompt, activationTile)));
    }
  }
}
