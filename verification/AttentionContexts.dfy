/** Softmax, context tiles and their reduction, for a decode head (all its cache tiles)
    or a prefill query tile (the key tiles it may attend to). */
module AttentionContexts {
  import opened Attention
  import opened Blocks
  import opened DataFlow
  import opened Delivery
  import opened Manifests
  import opened Records
  import opened Relinking
  import opened Sequences

  /** The softmax supplies the weights of all tiles. */
  ghost predicate WeightsAt(rs: seq<Record>, softmax: int, layer: nat, part: Part, weights: seq<Math>) {
    |weights| == |part.tiles| && forall j: nat :: j < |part.tiles| ==>
      Holds(rs, softmax, Tensor(layer, ProbabilityPart(part.head, part.query, part.tiles[j])), weights[j])
  }

  /** The first `n` weights, as products of the softmax. */
  ghost function WeightProducts(layer: nat, softmax: int, part: Part, n: nat): set<Product>
    requires n <= |part.tiles|
  {
    set j: nat | j < n :: (softmax, Tensor(layer, ProbabilityPart(part.head, part.query, part.tiles[j])))
  }

  method Softmax(records: seq<Record>, layer: nat, part: Part, scores: seq<int>, ghost args: seq<Math>, ghost scope: Scope)
      returns (extended: seq<Record>, id: int)
    requires AttentionBlock(records, scope) && layer < scope.layers && records != [] && |part.tiles| >= 1
    requires HoldsEach(records, scores, layer, ScoreNames(part), args)
    ensures Continued(records, extended, scope) && SameWork(records, extended)
    ensures WeightsAt(extended, id, layer, part, WeightArgs(args))
    ensures Leaves(records, extended, Products(layer, scores, ScoreNames(part)), WeightProducts(layer, id, part, |part.tiles|))
  {
    ScoresFit(records, layer, part, scores, args);
    extended, id := Attention.Step(records, AttentionSoftmax, layer, SoftmaxOp, scores, ScoreNames(part),
      ProbabilityNames(part), 1, scores, args, scope);
    SoftmaxSupplies(extended, layer, part, id, args);
    SoftmaxLeaves(records, extended, layer, part, scores, id);
  }

  lemma {:induction false} SoftmaxSupplies(extended: seq<Record>, layer: nat, part: Part, id: int, args: seq<Math>)
    requires |args| == |part.tiles|
    requires forall k: nat :: k < |ProbabilityNames(part)| ==>
      Holds(extended, id, Tensor(layer, ProbabilityNames(part)[k]), Outcome(AttentionSoftmax, SoftmaxOp, k, args))
    ensures WeightsAt(extended, id, layer, part, WeightArgs(args))
  {
    forall j: nat | j < |part.tiles|
      ensures Holds(extended, id, Tensor(layer, ProbabilityPart(part.head, part.query, part.tiles[j])), WeightArgs(args)[j])
    {
      assert Holds(extended, id, Tensor(layer, ProbabilityNames(part)[j]), Outcome(AttentionSoftmax, SoftmaxOp, j, args));
    }
  }

  lemma {:induction false} ScoresFit(records: seq<Record>, layer: nat, part: Part, scores: seq<int>, args: seq<Math>)
    requires HoldsEach(records, scores, layer, ScoreNames(part), args)
    ensures forall j :: 0 <= j < |scores| ==> Fitting(records, layer, SoftmaxOp, scores, ScoreNames(part)[j], scores[j], args[j])
    ensures forall d :: d in scores ==> Plain(Env(records), d)
  {
    forall j | 0 <= j < |scores|
      ensures Fitting(records, layer, SoftmaxOp, scores, ScoreNames(part)[j], scores[j], args[j]) && Plain(Env(records), scores[j])
    {
      assert Holds(records, scores[j], Tensor(layer, ScoreNames(part)[j]), args[j]);
    }
  }

  lemma {:induction false} SoftmaxLeaves(before: seq<Record>, after: seq<Record>, layer: nat, part: Part, scores: seq<int>, id: int)
    requires |scores| == |part.tiles| && StepLeaves(before, after, layer, scores, ScoreNames(part), id, ProbabilityNames(part))
    ensures Leaves(before, after, Products(layer, scores, ScoreNames(part)), WeightProducts(layer, id, part, |part.tiles|))
  {
    ProductsRead(layer, scores, ScoreNames(part));
    forall p: Product | p.0 == id && p.1.layer == layer && p.1.name in ProbabilityNames(part)
      ensures p in WeightProducts(layer, id, part, |part.tiles|)
    {
      var j: nat :| j < |part.tiles| && ProbabilityNames(part)[j] == p.1.name;
      assert p == (id, Tensor(layer, ProbabilityPart(part.head, part.query, part.tiles[j])));
    }
  }

  lemma {:induction false} ProductsRead(layer: nat, ids: seq<int>, names: seq<Name>)
    requires |ids| == |names|
    ensures forall p :: p in Products(layer, ids, names) ==> p.0 in ids && p.1.layer == layer && p.1.name in names
  {
    forall p | p in Products(layer, ids, names)
      ensures p.0 in ids && p.1.layer == layer && p.1.name in names
    {
      var j :| 0 <= j < |ids| && p == (ids[j], Tensor(layer, names[j]));
    }
  }

  /** A step with one output that reads at most one product of one record. */
  lemma {:induction false} LeavesOne(before: seq<Record>, after: seq<Record>, layer: nat, deps: seq<int>, inputs: seq<Name>, d: int, n: Name, id: int, output: Name)
    requires StepLeaves(before, after, layer, deps, inputs, id, [output]) && d in deps && n in inputs
    ensures Leaves(before, after, {(d, Tensor(layer, n))}, {(id, Tensor(layer, output))})
  {
  }

  /** A step with one output that reads a product of each of two records. */
  lemma {:induction false} LeavesTwo(before: seq<Record>, after: seq<Record>, layer: nat, deps: seq<int>, inputs: seq<Name>, a: int, x: Name, b: int,
                                     y: Name, id: int, output: Name)
    requires StepLeaves(before, after, layer, deps, inputs, id, [output]) && a in deps && b in deps && x in inputs && y in inputs
    ensures Leaves(before, after, {(a, Tensor(layer, x)), (b, Tensor(layer, y))}, {(id, Tensor(layer, output))})
  {
  }

  /** A step with one input and one output. */
  method StepOne(records: seq<Record>, kind: RecordKind, layer: nat, op: Op, deps: seq<int>, input: Name, output: Name, ghost from: int,
                 ghost e: Math, ghost scope: Scope)
      returns (extended: seq<Record>, id: int)
    requires AttentionBlock(records, scope) && layer < scope.layers && records != []
    requires kind.PIMOperandResidency? || kind.HostRead?
    requires !op.OProjection? && !op.QOperandResidency?
    requires op.PrefillTileResidency? ==> scope.tiles && kind.PIMOperandResidency?
    requires op.KvCacheTileRead? ==> kind.HostRead? && Leaf(input)
    requires op.PrefillTileResidency? || op == KvCacheTileRead(true) ==> deps == []
    requires forall d :: d in deps ==> Plain(Env(records), d)
    requires Fitting(records, layer, op, deps, input, from, e) && !Leaf(output) && !QueryOperand(output)
    ensures Continued(records, extended, scope) && SameWork(records, extended)
    ensures Holds(extended, id, Tensor(layer, output), Outcome(kind, op, 0, [e]))
    ensures StepLeaves(records, extended, layer, deps, [input], id, [output])
  {
    var outputs := [output];
    extended, id := Attention.Step(records, kind, layer, op, deps, [input], outputs, 1, [from], [e], scope);
    assert outputs[0] == output;
  }

  method ProbabilityOf(records: seq<Record>, layer: nat, part: Part, tile: nat, softmax: int, ghost w: Math, ghost scope: Scope)
      returns (extended: seq<Record>, id: int)
    requires AttentionBlock(records, scope) && layer < scope.layers && records != []
    requires Holds(records, softmax, Tensor(layer, ProbabilityPart(part.head, part.query, tile)), w)
    ensures Continued(records, extended, scope) && SameWork(records, extended)
    ensures Holds(extended, id, Tensor(layer, Visible(ProbabilityPart(part.head, part.query, tile))), w)
    ensures Leaves(records, extended, {(softmax, Tensor(layer, ProbabilityPart(part.head, part.query, tile)))},
                   {(id, Tensor(layer, Visible(ProbabilityPart(part.head, part.query, tile))))})
  {
    var input, output := ProbabilityPart(part.head, part.query, tile), Visible(ProbabilityPart(part.head, part.query, tile));
    extended, id := StepOne(records, PIMOperandResidency, layer, ProbabilityResidency, [softmax], input, output, softmax, w, scope);
    LeavesOne(records, extended, layer, [softmax], [input], softmax, input, id, output);
  }

  /** A record with one output that reads one tensor from outside. */
  ghost predicate Brought(records: seq<Record>, extended: seq<Record>, id: int, layer: nat, output: Name, e: Math, scope: Scope) {
    && Continued(records, extended, scope) && SameWork(records, extended)
    && Holds(extended, id, Tensor(layer, output), e)
    && Leaves(records, extended, {}, {(id, Tensor(layer, output))})
  }

  lemma {:induction false} IsBrought(records: seq<Record>, extended: seq<Record>, id: int, layer: nat, deps: seq<int>, input: Name, output: Name, e: Math,
                  scope: Scope)
    requires Continued(records, extended, scope) && SameWork(records, extended)
    requires Holds(extended, id, Tensor(layer, output), e)
    requires StepLeaves(records, extended, layer, deps, [input], id, [output])
    ensures Brought(records, extended, id, layer, output, e, scope)
  {
  }

  lemma {:induction false} CacheReadFits(records: seq<Record>, layer: nat, isKey: bool, deps: seq<int>, input: Name)
    requires Leaf(input)
    ensures Fitting(records, layer, KvCacheTileRead(isKey), deps, input, -1, Given(input))
    ensures Outcome(HostRead, KvCacheTileRead(isKey), 0, [Given(input)]) == Given(input)
  {
  }

  method ReadTile(records: seq<Record>, layer: nat, isKey: bool, deps: seq<int>, input: Name, output: Name, ghost scope: Scope)
      returns (extended: seq<Record>, id: int)
    requires AttentionBlock(records, scope) && layer < scope.layers && records != []
    requires Leaf(input) && !Leaf(output) && !QueryOperand(output) && forall d :: d in deps ==> Plain(Env(records), d)
    requires isKey ==> deps == []
    ensures Brought(records, extended, id, layer, output, Given(input), scope)
  {
    CacheReadFits(records, layer, isKey, deps, input);
    extended, id := StepOne(records, HostRead, layer, KvCacheTileRead(isKey), deps, input, output, -1, Given(input), scope);
    IsBrought(records, extended, id, layer, deps, input, output, Given(input), scope);
  }

  method ResidentTile(records: seq<Record>, layer: nat, isKey: bool, input: Name, output: Name, ghost scope: Scope)
      returns (extended: seq<Record>, id: int)
    requires AttentionBlock(records, scope) && layer < scope.layers && records != [] && scope.tiles
    requires Port(input) && !Leaf(output) && !QueryOperand(output)
    ensures Brought(records, extended, id, layer, output, Computed(PrefillTileResidency(isKey), [Given(input)]), scope)
  {
    extended, id := StepOne(records, PIMOperandResidency, layer, PrefillTileResidency(isKey), [], input, output, -1, Given(input), scope);
    IsBrought(records, extended, id, layer, [], input, output, Computed(PrefillTileResidency(isKey), [Given(input)]), scope);
  }

  /** A decode head reads the cached value tile; a prefill tile is resident already. */
  method ValueOf(records: seq<Record>, layer: nat, part: Part, tile: nat, softmax: int, ghost scope: Scope)
      returns (extended: seq<Record>, id: int)
    requires AttentionBlock(records, scope) && layer < scope.layers && records != []
    requires part.query.Some? ==> scope.tiles
    requires Plain(Env(records), softmax)
    ensures Continued(records, extended, scope) && SameWork(records, extended)
    ensures Holds(extended, id, Tensor(layer, part.ValueName(tile)), part.ValueMath(tile))
    ensures Leaves(records, extended, {}, {(id, Tensor(layer, part.ValueName(tile)))})
  {
    if part.query.None? {
      extended, id := ReadTile(records, layer, false, [softmax], CacheTile(part.head, tile, false), part.ValueName(tile), scope);
    } else {
      extended, id := ResidentTile(records, layer, false, PromptTile(part.head, false, tile), part.ValueName(tile), scope);
    }
  }

  /** Two operands, each an output of a dependency. */
  lemma {:induction false} TwoFit(records: seq<Record>, layer: nat, op: Op, deps: seq<int>, inputs: seq<Name>, from: seq<int>, args: seq<Math>)
    requires |inputs| == |from| == |args| == 2 && |deps| == 3 && deps[0] == from[0] && deps[2] == from[1]
    requires Holds(records, from[0], Tensor(layer, inputs[0]), args[0]) && !Port(inputs[0])
    requires Holds(records, from[1], Tensor(layer, inputs[1]), args[1]) && !Port(inputs[1])
    requires Plain(Env(records), deps[1])
    ensures forall j :: 0 <= j < 2 ==> Fitting(records, layer, op, deps, inputs[j], from[j], args[j])
    ensures forall d :: d in deps ==> Plain(Env(records), d)
  {
    assert from[0] in deps && from[1] in deps;
  }

  method ContextOf(records: seq<Record>, layer: nat, part: Part, tile: nat, probability: int, softmax: int, value: int,
                   requests: int, ghost w: Math, ghost scope: Scope)
      returns (extended: seq<Record>, id: int)
    requires AttentionBlock(records, scope) && layer < scope.layers && records != []
    requires Plain(Env(records), softmax)
    requires Holds(records, probability, Tensor(layer, Visible(ProbabilityPart(part.head, part.query, tile))), w)
    requires Holds(records, value, Tensor(layer, part.ValueName(tile)), part.ValueMath(tile))
    ensures Continued(records, extended, scope) && id == |records|
    ensures Holds(extended, id, Tensor(layer, ContextPart(part.head, part.query, tile)), ContextMath(w, part.ValueMath(tile)))
    ensures ContextAdded(records, extended, id, requests)
    ensures Leaves(records, extended, {(probability, Tensor(layer, Visible(ProbabilityPart(part.head, part.query, tile)))),
                                       (value, Tensor(layer, part.ValueName(tile)))},
                   {(id, Tensor(layer, ContextPart(part.head, part.query, tile)))})
  {
    var x, y, output := Visible(ProbabilityPart(part.head, part.query, tile)), part.ValueName(tile), ContextPart(part.head, part.query, tile);
    var deps, inputs, outputs := [probability, softmax, value], [x, y], [output];
    ghost var from, args := [probability, value], [w, part.ValueMath(tile)];
    TwoFit(records, layer, ContextOp, deps, inputs, from, args);
    extended, id := Attention.Step(records, AttentionContext, layer, ContextOp, deps, inputs, outputs, requests, from, args, scope);
    LeavesTwo(records, extended, layer, deps, inputs, probability, x, value, y, id, output);
    assert outputs[0] == output;
  }

  ghost predicate ContextAdded(before: seq<Record>, after: seq<Record>, id: int, requests: int) {
    && Requests(after) == Requests(before) + requests
    && Contexts(after) == Contexts(before) + [id]
    && Consumed(after) == Consumed(before) && Reductions(after) == Reductions(before)
  }

  /** One more context, which read its weight. */
  ghost predicate TileAdded(records: seq<Record>, extended: seq<Record>, id: int, layer: nat, part: Part, tile: nat, softmax: int, requests: int,
                            w: Math, scope: Scope) {
    && Continued(records, extended, scope) && id >= |records|
    && Holds(extended, id, Tensor(layer, ContextPart(part.head, part.query, tile)), ContextMath(w, part.ValueMath(tile)))
    && ContextAdded(records, extended, id, requests)
    && Leaves(records, extended, {(softmax, Tensor(layer, ProbabilityPart(part.head, part.query, tile)))},
              {(id, Tensor(layer, ContextPart(part.head, part.query, tile)))})
  }

  lemma {:induction false} TileLeaves(records: seq<Record>, resident: seq<Record>, read: seq<Record>, extended: seq<Record>, layer: nat, part: Part, tile: nat,
                   softmax: int, probability: int, value: int, id: int)
    requires Leaves(records, resident, {(softmax, Tensor(layer, ProbabilityPart(part.head, part.query, tile)))},
                    {(probability, Tensor(layer, Visible(ProbabilityPart(part.head, part.query, tile))))})
    requires Leaves(resident, read, {}, {(value, Tensor(layer, part.ValueName(tile)))})
    requires Leaves(read, extended, {(probability, Tensor(layer, Visible(ProbabilityPart(part.head, part.query, tile)))),
                                     (value, Tensor(layer, part.ValueName(tile)))},
                    {(id, Tensor(layer, ContextPart(part.head, part.query, tile)))})
    ensures Leaves(records, extended, {(softmax, Tensor(layer, ProbabilityPart(part.head, part.query, tile)))},
                   {(id, Tensor(layer, ContextPart(part.head, part.query, tile)))})
  {
  }

  /** Value-tile read and context, after the probability residency. */
  method ReadAndWeigh(records: seq<Record>, layer: nat, part: Part, tile: nat, probability: int, softmax: int, requests: int, ghost w: Math,
                      ghost scope: Scope)
      returns (extended: seq<Record>, id: int, ghost read: seq<Record>, ghost value: int)
    requires AttentionBlock(records, scope) && layer < scope.layers && records != []
    requires part.query.Some? ==> scope.tiles
    requires Plain(Env(records), softmax)
    requires Holds(records, probability, Tensor(layer, Visible(ProbabilityPart(part.head, part.query, tile))), w)
    ensures Continued(records, extended, scope) && id >= |records|
    ensures Holds(extended, id, Tensor(layer, ContextPart(part.head, part.query, tile)), ContextMath(w, part.ValueMath(tile)))
    ensures ContextAdded(records, extended, id, requests)
    ensures Leaves(records, read, {}, {(value, Tensor(layer, part.ValueName(tile)))})
    ensures Leaves(read, extended, {(probability, Tensor(layer, Visible(ProbabilityPart(part.head, part.query, tile)))),
                                    (value, Tensor(layer, part.ValueName(tile)))},
                   {(id, Tensor(layer, ContextPart(part.head, part.query, tile)))})
  {
    var middle, v := ValueOf(records, layer, part, tile, softmax, scope);
    read, value := middle, v;
    extended, id := ContextOf(middle, layer, part, tile, probability, softmax, v, requests, w, scope);
    ContinuedThrough(records, middle, extended, scope);
  }

  /** Probability residency, value-tile read and context of one tile. */
  method ContextTile(records: seq<Record>, layer: nat, part: Part, tile: nat, softmax: int, requests: int, ghost w: Math, ghost scope: Scope)
      returns (extended: seq<Record>, id: int)
    requires AttentionBlock(records, scope) && layer < scope.layers && records != []
    requires part.query.Some? ==> scope.tiles
    requires Holds(records, softmax, Tensor(layer, ProbabilityPart(part.head, part.query, tile)), w)
    ensures TileAdded(records, extended, id, layer, part, tile, softmax, requests, w, scope)
  {
    var resident, probability := ProbabilityOf(records, layer, part, tile, softmax, w, scope);
    ghost var read, value;
    extended, id, read, value := ReadAndWeigh(resident, layer, part, tile, probability, softmax, requests, w, scope);
    ContinuedThrough(records, resident, extended, scope);
    TileLeaves(records, resident, read, extended, layer, part, tile, softmax, probability, value, id);
  }

  /** Reduces the contexts of a head when there is more than one. */
  method Reduce(records: seq<Record>, layer: nat, part: Part, ids: seq<int>, ghost args: seq<Math>, ghost scope: Scope)
      returns (extended: seq<Record>, end: int)
    requires AttentionBlock(records, scope) && layer < scope.layers && records != [] && |ids| >= 1
    requires HoldsEach(records, ids, layer, ContextNames(part), args)
    requires multiset(Consumed(records) + ids) <= multiset(Contexts(records))
    ensures Continued(records, extended, scope) && Requests(extended) == Requests(records)
    ensures Holds(extended, end, Tensor(layer, part.EndName()), EndMath(args))
    ensures Contexts(extended) == Contexts(records)
    ensures if |ids| > 1 then Consumed(extended) == Consumed(records) + ids && Reductions(extended) == Reductions(records) + [end]
            else end == ids[0] && SameResults(records, extended)
    ensures Leaves(records, extended, Products(layer, ids, ContextNames(part)), {(end, Tensor(layer, part.EndName()))})
  {
    if |ids| > 1 {
      ContextsFit(records, layer, part, ids, args);
      extended, end := Attention.Step(records, PIMElementwise, layer, ContextReduction, ids, ContextNames(part),
        [ReducedContext(part.head, part.query)], 1, ids, args, scope);
      ReduceLeaves(records, extended, layer, part, ids, end);
      assert [ReducedContext(part.head, part.query)][0] == part.EndName();
    } else {
      extended, end := records, ids[0];
      assert Holds(records, ids[0], Tensor(layer, ContextNames(part)[0]), args[0]);
    }
  }

  lemma {:induction false} ContextsFit(records: seq<Record>, layer: nat, part: Part, ids: seq<int>, args: seq<Math>)
    requires HoldsEach(records, ids, layer, ContextNames(part), args)
    ensures forall j :: 0 <= j < |ids| ==> Fitting(records, layer, ContextReduction, ids, ContextNames(part)[j], ids[j], args[j])
    ensures forall d :: d in ids ==> Plain(Env(records), d)
  {
    forall j | 0 <= j < |ids|
      ensures Fitting(records, layer, ContextReduction, ids, ContextNames(part)[j], ids[j], args[j]) && Plain(Env(records), ids[j])
    {
      assert Holds(records, ids[j], Tensor(layer, ContextNames(part)[j]), args[j]);
    }
  }

  lemma {:induction false} ReduceLeaves(before: seq<Record>, after: seq<Record>, layer: nat, part: Part, ids: seq<int>, end: int)
    requires |ids| == |part.tiles| > 1
    requires StepLeaves(before, after, layer, ids, ContextNames(part), end, [ReducedContext(part.head, part.query)])
    ensures Leaves(before, after, Products(layer, ids, ContextNames(part)), {(end, Tensor(layer, part.EndName()))})
  {
    ProductsRead(layer, ids, ContextNames(part));
  }

  lemma {:induction false} NextSum(work: seq<int>, n: nat)
    requires n < |work|
    ensures Sum(work[..n + 1]) == Sum(work[..n]) + work[n]
  {
    SumAppend(work[..n], work[n]);
    assert work[..n + 1] == work[..n] + [work[n]];
  }

  // ---- the tiles of a part ----

  /** `extended` adds contexts `ids` for the tiles whose requests are `done`. */
  ghost predicate ContextsAdded(records: seq<Record>, extended: seq<Record>, ids: seq<int>, layer: nat, part: Part, softmax: int,
                                weights: seq<Math>, done: seq<int>, scope: Scope) {
    && Continued(records, extended, scope) && |weights| == |part.tiles|
    && Requests(extended) == Requests(records) + Sum(done)
    && |ids| == |done| <= |part.tiles|
    && HoldsEach(extended, ids, layer, ContextNames(part)[..|ids|], ContextArgs(part, weights)[..|ids|])
    && Contexts(extended) == Contexts(records) + ids && (forall x :: x in ids ==> x >= |records|)
    && Consumed(extended) == Consumed(records) && Reductions(extended) == Reductions(records)
    && Leaves(records, extended, WeightProducts(layer, softmax, part, |ids|), Products(layer, ids, ContextNames(part)[..|ids|]))
  }

  lemma {:induction false} OneMoreTile(records: seq<Record>, before: seq<Record>, after: seq<Record>, ids: seq<int>, id: int, layer: nat,
                    part: Part, softmax: int, weights: seq<Math>, work: seq<int>, scope: Scope)
    requires |ids| < |work| == |part.tiles| == |weights|
    requires ContextsAdded(records, before, ids, layer, part, softmax, weights, work[..|ids|], scope)
    requires TileAdded(before, after, id, layer, part, part.tiles[|ids|], softmax, work[|ids|], weights[|ids|], scope)
    ensures ContextsAdded(records, after, ids + [id], layer, part, softmax, weights, work[..|ids| + 1], scope)
  {
    NextSum(work, |ids|);
    MoreContexts(before, after, ids, id, layer, part, weights);
    MoreContextsLeave(records, before, after, ids, id, layer, part, softmax);
    ContinuedThrough(records, before, after, scope);
  }

  lemma {:induction false} MoreContexts(before: seq<Record>, after: seq<Record>, ids: seq<int>, id: int, layer: nat, part: Part, weights: seq<Math>)
    requires |ids| < |part.tiles| == |weights|
    requires HoldsEach(before, ids, layer, ContextNames(part)[..|ids|], ContextArgs(part, weights)[..|ids|]) && KeepsValues(before, after)
    requires var tile := part.tiles[|ids|];
      Holds(after, id, Tensor(layer, ContextPart(part.head, part.query, tile)), ContextMath(weights[|ids|], part.ValueMath(tile)))
    ensures HoldsEach(after, ids + [id], layer, ContextNames(part)[..|ids| + 1], ContextArgs(part, weights)[..|ids| + 1])
  {
    HoldsEachKept(before, after, ids, layer, ContextNames(part)[..|ids|], ContextArgs(part, weights)[..|ids|]);
    assert ContextNames(part)[|ids|] == ContextPart(part.head, part.query, part.tiles[|ids|]);
    assert ContextArgs(part, weights)[|ids|] == ContextMath(weights[|ids|], part.ValueMath(part.tiles[|ids|]));
  }

  lemma {:induction false} MoreContextsLeave(records: seq<Record>, before: seq<Record>, after: seq<Record>, ids: seq<int>, id: int, layer: nat, part: Part, softmax: int)
    requires |ids| < |part.tiles|
    requires Leaves(records, before, WeightProducts(layer, softmax, part, |ids|), Products(layer, ids, ContextNames(part)[..|ids|]))
    requires var tile := part.tiles[|ids|];
      Leaves(before, after, {(softmax, Tensor(layer, ProbabilityPart(part.head, part.query, tile)))},
             {(id, Tensor(layer, ContextPart(part.head, part.query, tile)))})
    ensures Leaves(records, after, WeightProducts(layer, softmax, part, |ids| + 1), Products(layer, ids + [id], ContextNames(part)[..|ids| + 1]))
  {
    var names := ContextNames(part);
    assert names[..|ids| + 1] == names[..|ids|] + [ContextPart(part.head, part.query, part.tiles[|ids|])];
    MoreProducts(layer, ids, names[..|ids|], id, ContextPart(part.head, part.query, part.tiles[|ids|]));
  }

  method NextContext(ghost records: seq<Record>, before: seq<Record>, layer: nat, part: Part, ghost work: seq<int>,
                     requests: int, softmax: int, ghost weights: seq<Math>, ghost ids: seq<int>, tile: nat, ghost scope: Scope)
      returns (after: seq<Record>, id: int)
    requires layer < scope.layers && |ids| < |work| == |part.tiles|
    requires ContextsAdded(records, before, ids, layer, part, softmax, weights, work[..|ids|], scope)
    requires tile == part.tiles[|ids|] && requests == work[|ids|]
    requires WeightsAt(records, softmax, layer, part, weights)
    requires part.query.Some? ==> scope.tiles
    ensures ContextsAdded(records, after, ids + [id], layer, part, softmax, weights, work[..|ids| + 1], scope)
  {
    assert Holds(records, softmax, Tensor(layer, ProbabilityPart(part.head, part.query, part.tiles[|ids|])), weights[|ids|]);
    after, id := ContextTile(before, layer, part, tile, softmax, requests, weights[|ids|], scope);
    OneMoreTile(records, before, after, ids, id, layer, part, softmax, weights, work, scope);
  }

  /** The context tiles of one head, in tile order. */
  method ContextTiles(records: seq<Record>, layer: nat, part: Part, work: seq<int>, softmax: int, ghost weights: seq<Math>, ghost scope: Scope)
      returns (extended: seq<Record>, ids: seq<int>)
    requires AttentionBlock(records, scope) && layer < scope.layers && records != []
    requires WeightsAt(records, softmax, layer, part, weights) && |work| == |part.tiles|
    requires part.query.Some? ==> scope.tiles
    ensures ContextsAdded(records, extended, ids, layer, part, softmax, weights, work, scope)
  {
    extended, ids := records, [];
    assert work[..0] == [];
    for i := 0 to |work|
      invariant |ids| == i && ContextsAdded(records, extended, ids, layer, part, softmax, weights, work[..i], scope)
    {
      var id;
      extended, id := NextContext(records, extended, layer, part, work, work[i], softmax, weights, ids, part.tiles[i], scope);
      ids := ids + [id];
    }
    assert work[..|work|] == work;
  }

  lemma {:induction false} ContextsRoom(consumed: seq<int>, contexts: seq<int>, ids: seq<int>)
    requires multiset(consumed) <= multiset(contexts)
    ensures multiset(consumed + ids) <= multiset(contexts + ids)
  {
  }

  // ---- a part's result ----

  /** `extended` adds the result `end` of a part, which nothing reads, and reads its scores. */
  ghost predicate PartEnded(records: seq<Record>, extended: seq<Record>, end: int, layer: nat, part: Part, scores: seq<int>, args: seq<Math>,
                            work: seq<int>, scope: Scope)
    requires |args| == |part.tiles| == |scores|
  {
    && Continued(records, extended, scope)
    && Requests(extended) == Requests(records) + Sum(work)
    && Terminals(extended) == Terminals(records) + 1
    && Holds(extended, end, Tensor(layer, part.EndName()), EndMath(ContextArgs(part, WeightArgs(args))))
    && Leaves(records, extended, Products(layer, scores, ScoreNames(part)), {(end, Tensor(layer, part.EndName()))})
    && TerminalIn(extended, end) && KeepsTerminals(records, extended)
  }

  /** `_append_attention_softmax_context_records`: however many tiles a head has, it
      ends in one terminal record, the attention of its scores over its values. */
  method HeadContexts(records: seq<Record>, layer: nat, part: Part, work: seq<int>, scores: seq<int>, ghost args: seq<Math>, ghost scope: Scope)
      returns (extended: seq<Record>, ghost end: int)
    requires AttentionBlock(records, scope) && layer < scope.layers && records != []
    requires |work| == |part.tiles| >= 1 && HoldsEach(records, scores, layer, ScoreNames(part), args)
    requires part.query.Some? ==> scope.tiles
    ensures PartEnded(records, extended, end, layer, part, scores, args, work, scope)
  {
    var softmax;
    extended, softmax := Softmax(records, layer, part, scores, args, scope);
    ghost var normalized := extended;
    extended, end := WeightedContexts(extended, layer, part, work, softmax, WeightArgs(args), scope);
    EndsPart(records, normalized, extended, end, layer, part, scores, args, work, softmax, scope);
  }

  lemma {:induction false} EndsPart(records: seq<Record>, normalized: seq<Record>, extended: seq<Record>, end: int, layer: nat, part: Part, scores: seq<int>,
                 args: seq<Math>, work: seq<int>, softmax: int, scope: Scope)
    requires |args| == |part.tiles| == |scores| >= 1
    requires Continued(records, normalized, scope) && SameWork(records, normalized)
    requires Leaves(records, normalized, Products(layer, scores, ScoreNames(part)), WeightProducts(layer, softmax, part, |part.tiles|))
    requires WeightsCollected(normalized, extended, end, layer, part, softmax, WeightArgs(args), work, scope)
    ensures PartEnded(records, extended, end, layer, part, scores, args, work, scope)
  {
    ContinuedThrough(records, normalized, extended, scope);
    SameTerminals(records, normalized);
    SoftmaxThenContexts(records, normalized, extended, layer, part, scores, softmax, end);
    forall x | TerminalIn(records, x)
      ensures TerminalIn(extended, x)
    {
      assert TerminalIn(normalized, x);
    }
  }

  lemma {:induction false} SoftmaxThenContexts(records: seq<Record>, normalized: seq<Record>, extended: seq<Record>, layer: nat, part: Part, scores: seq<int>,
                            softmax: int, end: int)
    requires |scores| == |part.tiles| >= 1
    requires Leaves(records, normalized, Products(layer, scores, ScoreNames(part)), WeightProducts(layer, softmax, part, |part.tiles|))
    requires Leaves(normalized, extended, WeightProducts(layer, softmax, part, |part.tiles|), {(end, Tensor(layer, part.EndName()))})
    ensures Leaves(records, extended, Products(layer, scores, ScoreNames(part)), {(end, Tensor(layer, part.EndName()))})
  {
  }

  /** The result `end` of the weights, which it reads. */
  ghost predicate WeightsCollected(records: seq<Record>, extended: seq<Record>, end: int, layer: nat, part: Part, softmax: int, weights: seq<Math>,
                            work: seq<int>, scope: Scope) {
    && Continued(records, extended, scope)
    && Requests(extended) == Requests(records) + Sum(work)
    && Terminals(extended) == Terminals(records) + 1
    && |weights| == |part.tiles| && Holds(extended, end, Tensor(layer, part.EndName()), EndMath(ContextArgs(part, weights)))
    && Leaves(records, extended, WeightProducts(layer, softmax, part, |part.tiles|), {(end, Tensor(layer, part.EndName()))})
    && TerminalIn(extended, end) && KeepsTerminals(records, extended)
  }

  /** The contexts of all tiles, ended in one terminal record. */
  method WeightedContexts(records: seq<Record>, layer: nat, part: Part, work: seq<int>, softmax: int, ghost weights: seq<Math>, ghost scope: Scope)
      returns (extended: seq<Record>, end: int)
    requires AttentionBlock(records, scope) && layer < scope.layers && records != []
    requires WeightsAt(records, softmax, layer, part, weights) && |work| == |part.tiles| >= 1
    requires part.query.Some? ==> scope.tiles
    ensures WeightsCollected(records, extended, end, layer, part, softmax, weights, work, scope)
  {
    var ids;
    extended, ids := ContextTiles(records, layer, part, work, softmax, weights, scope);
    ghost var contexts := extended;
    AllContexts(records, extended, ids, layer, part, softmax, weights, work, scope);
    ContextsRoom(Consumed(records), Contexts(records), ids);
    extended, end := Reduce(extended, layer, part, ids, ContextArgs(part, weights), scope);
    Collects(records, contexts, extended, end, ids, layer, part, softmax, weights, work, scope);
  }

  lemma {:induction false} AllContexts(records: seq<Record>, contexts: seq<Record>, ids: seq<int>, layer: nat, part: Part, softmax: int, weights: seq<Math>,
                    work: seq<int>, scope: Scope)
    requires |work| == |part.tiles|
    requires ContextsAdded(records, contexts, ids, layer, part, softmax, weights, work, scope)
    ensures HoldsEach(contexts, ids, layer, ContextNames(part), ContextArgs(part, weights))
    ensures Leaves(records, contexts, WeightProducts(layer, softmax, part, |part.tiles|), Products(layer, ids, ContextNames(part)))
  {
    WholePrefix(ContextNames(part));
    WholePrefix(ContextArgs(part, weights));
  }

  lemma {:induction false} WholePrefix<T>(s: seq<T>)
    ensures s[..|s|] == s
  {
  }

  lemma {:induction false} Collects(records: seq<Record>, contexts: seq<Record>, extended: seq<Record>, end: int, ids: seq<int>, layer: nat, part: Part, softmax: int,
                 weights: seq<Math>, work: seq<int>, scope: Scope)
    requires AttentionBlock(records, scope) && |ids| == |part.tiles| >= 1 && |weights| == |part.tiles|
    requires ContextsAdded(records, contexts, ids, layer, part, softmax, weights, work, scope)
    requires Leaves(records, contexts, WeightProducts(layer, softmax, part, |part.tiles|), Products(layer, ids, ContextNames(part)))
    requires Continued(contexts, extended, scope) && Requests(extended) == Requests(contexts)
    requires Holds(extended, end, Tensor(layer, part.EndName()), EndMath(ContextArgs(part, weights)))
    requires Contexts(extended) == Contexts(contexts)
    requires if |ids| > 1 then Consumed(extended) == Consumed(contexts) + ids && Reductions(extended) == Reductions(contexts) + [end]
             else end == ids[0] && SameResults(contexts, extended)
    requires Leaves(contexts, extended, Products(layer, ids, ContextNames(part)), {(end, Tensor(layer, part.EndName()))})
    ensures WeightsCollected(records, extended, end, layer, part, softmax, weights, work, scope)
  {
    ContinuedThrough(records, contexts, extended, scope);
    ResultEnds(records, extended, ids, end);
  }

  lemma {:induction false} BlockIncreases(rs: seq<Record>)
    requires Block(rs)
    ensures IdsIncrease(rs) && NoRepeats(Contexts(rs)) && forall x :: x in Contexts(rs) ==> 0 <= x < |rs|
  {
    ContextsIncrease(rs);
    forall x | x in Contexts(rs)
      ensures 0 <= x < |rs|
    {
      ContextsFrom(rs, x);
    }
  }

  /** Which results are unread after the contexts `ids` are reduced, or left as they are. */
  lemma {:induction false} ResultEnds(records: seq<Record>, extended: seq<Record>, ids: seq<int>, end: int)
    requires Block(records) && Block(extended) && |ids| >= 1 && forall x :: x in ids ==> x >= |records|
    requires multiset(Consumed(records)) <= multiset(Contexts(records))
    requires Contexts(extended) == Contexts(records) + ids
    requires if |ids| > 1 then Consumed(extended) == Consumed(records) + ids && Reductions(extended) == Reductions(records) + [end]
             else end == ids[0] && Consumed(extended) == Consumed(records) && Reductions(extended) == Reductions(records)
    ensures TerminalIn(extended, end) && KeepsTerminals(records, extended)
    ensures Terminals(extended) == Terminals(records) + 1
  {
    BlockIncreases(records);
    forall x | x in Consumed(records)
      ensures x in Contexts(records)
    {
      assert x in multiset(Consumed(records));
    }
    forall x | TerminalIn(records, x)
      ensures TerminalIn(extended, x)
    {
      if x !in Reductions(records) {
        assert x in Contexts(records) && x < |records|;
      }
    }
    if |ids| == 1 {
      assert ids[0] in ids && end in Contexts(extended);
    }
  }
}
