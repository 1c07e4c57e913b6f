/** What both attention generators share: the invariant of an attention block, the ways
    they append a record to it, and what attention computes. */
module Attention {
  import opened DataFlow
  import opened Delivery
  import opened Manifests
  import opened Records
  import opened Relinking
  import opened Results
  import opened Sequences

  /** Attention records so far.  Reductions read contexts, none of them twice. */
  ghost predicate AttentionBlock(rs: seq<Record>, scope: Scope) {
    && Block(rs)
    && Shaped(rs, scope)
    && (rs != [] ==> IsQueryResidency(rs[0]))
    && multiset(Consumed(rs)) <= multiset(Contexts(rs))
  }

  predicate TilesInScope(r: Record, scope: Scope) {
    r.layer < scope.layers && (scope.tiles || !r.op.PrefillTileResidency?) && OwnLayer(r)
  }

  ghost predicate Shaped(rs: seq<Record>, scope: Scope)
    decreases |rs|
  {
    rs == []
    || (Shaped(rs[..|rs| - 1], scope) && AttentionShape(rs[|rs| - 1]) && TilesInScope(rs[|rs| - 1], scope))
  }

  lemma {:induction false} ShapedAt(rs: seq<Record>, scope: Scope, i: nat)
    requires Shaped(rs, scope) && i < |rs|
    ensures AttentionShape(rs[i]) && TilesInScope(rs[i], scope)
    decreases |rs|
  {
    if i < |rs| - 1 {
      ShapedAt(rs[..|rs| - 1], scope, i);
    }
  }

  /** Attention results nothing has reduced yet, plus the reductions. */
  function Terminals(rs: seq<Record>): int {
    |Reductions(rs)| + |Contexts(rs)| - |Consumed(rs)|
  }

  // ---- appending one record ----

  /** What a record may read as `e`: a tensor from outside, or an output of a dependency. */
  ghost predicate Fitting(records: seq<Record>, layer: nat, op: Op, deps: seq<int>, n: Name, d: int, e: Math) {
    || ((Leaf(n) || (op.PrefillTileResidency? && Port(n))) && e == Given(n))
    || (!Port(n) && d in deps && Holds(records, d, Tensor(layer, n), e))
  }

  /** The record `id` takes what it reads of its dependencies and leaves its outputs. */
  ghost predicate StepLeaves(before: seq<Record>, after: seq<Record>, layer: nat, deps: seq<int>, inputs: seq<Name>, id: int, outputs: seq<Name>) {
    forall p {:trigger Spare(after, p)} :: Spare(after, p) ==>
      || (Spare(before, p) && !(p.0 in deps && p.1.layer == layer && p.1.name in inputs))
      || (p.0 == id && p.1.layer == layer && p.1.name in outputs)
  }

  /** A record none of whose operands is a query operand. */
  method Step(records: seq<Record>, kind: RecordKind, layer: nat, op: Op, deps: seq<int>, inputs: seq<Name>,
              outputs: seq<Name>, requests: int, ghost from: seq<int>, ghost args: seq<Math>, ghost scope: Scope)
      returns (extended: seq<Record>, id: int)
    requires AttentionBlock(records, scope) && layer < scope.layers && records != [] && outputs != []
    requires !kind.AttentionScore? && !IsProjection(kind) && !op.OProjection? && !op.QOperandResidency?
    requires op.PrefillTileResidency? ==> scope.tiles && kind.PIMOperandResidency?
    requires op.KvCacheTileRead? ==> kind.HostRead? && forall n <- inputs :: Leaf(n)
    requires op.PrefillTileResidency? || op == KvCacheTileRead(true) ==> deps == []
    requires kind.PIMElementwise? && op.ContextReduction? ==> multiset(Consumed(records) + deps) <= multiset(Contexts(records))
    requires forall d :: d in deps ==> Plain(Env(records), d)
    requires |from| == |inputs| == |args|
    requires forall j :: 0 <= j < |inputs| ==> Fitting(records, layer, op, deps, inputs[j], from[j], args[j])
    requires forall n <- outputs :: !Leaf(n) && !QueryOperand(n)
    ensures id == |records| && Continued(records, extended, scope)
    ensures Plain(Env(extended), id)
    ensures forall k: nat :: k < |outputs| ==> Holds(extended, id, Tensor(layer, outputs[k]), Outcome(kind, op, k, args))
    ensures Requests(extended) == Requests(records) + if kind.AttentionContext? then requests else 0
    ensures Contexts(extended) == Contexts(records) + if kind.AttentionContext? then [id] else []
    ensures kind.PIMElementwise? && op.ContextReduction? ==>
      Consumed(extended) == Consumed(records) + deps && Reductions(extended) == Reductions(records) + [id]
    ensures !(kind.PIMElementwise? && op.ContextReduction?) ==>
      Consumed(extended) == Consumed(records) && Reductions(extended) == Reductions(records)
    ensures StepLeaves(records, extended, layer, deps, inputs, id, outputs)
  {
    id := |records|;
    var r := Record(id, kind, layer, op, Tensors(layer, inputs), Tensors(layer, outputs), deps, requests);
    StepFits(records, r, inputs, outputs, from, args);
    AddRecord(records, r, args, scope);
    extended := records + [r];
    StepSupplies(extended, r, outputs, args);
    StepSpare(records, r, inputs, outputs);
  }

  /** The block goes on, and keeps what its records supply. */
  ghost predicate Continued(before: seq<Record>, after: seq<Record>, scope: Scope) {
    && AttentionBlock(after, scope) && after != [] && |before| <= |after|
    && KeepsValues(before, after) && KeepsQueryValues(before, after)
    && forall d {:trigger Plain(Env(after), d)} :: Plain(Env(before), d) ==> Plain(Env(after), d)
  }

  lemma {:induction false} StepFits(records: seq<Record>, r: Record, inputs: seq<Name>, outputs: seq<Name>, from: seq<int>, args: seq<Math>)
    requires r.inputs == Tensors(r.layer, inputs) && r.outputs == Tensors(r.layer, outputs) && outputs != []
    requires Block(records) && r.id == |records|
    requires !r.kind.AttentionScore? && !IsProjection(r.kind) && !r.op.OProjection? && !r.op.QOperandResidency?
    requires r.op.PrefillTileResidency? ==> r.kind.PIMOperandResidency?
    requires r.op.KvCacheTileRead? ==> r.kind.HostRead? && forall n <- inputs :: Leaf(n)
    requires r.op.PrefillTileResidency? || r.op == KvCacheTileRead(true) ==> r.deps == []
    requires forall d :: d in r.deps ==> Plain(Env(records), d)
    requires |from| == |inputs| == |args|
    requires forall j :: 0 <= j < |inputs| ==> Fitting(records, r.layer, r.op, r.deps, inputs[j], from[j], args[j])
    requires forall n <- outputs :: !Leaf(n) && !QueryOperand(n)
    ensures Follows(Env(records), r, true) && AttentionShape(r) && OwnLayer(r)
    ensures forall t :: t in r.outputs ==> !QueryOperand(t.name)
    ensures forall j: nat :: j < |args| ==> Finds(records, r.id, r.deps, r.inputs[j], args[j])
  {
    forall j: nat | j < |args|
      ensures Finds(records, r.id, r.deps, r.inputs[j], args[j]) && Fed(Env(records), r.deps, r.inputs[j], true)
    {
      assert Fitting(records, r.layer, r.op, r.deps, inputs[j], from[j], args[j]);
      if from[j] in r.deps && Holds(records, from[j], Tensor(r.layer, inputs[j]), args[j]) {
        assert Supplies(Env(records), from[j], r.inputs[j]) && records[from[j]].id == from[j];
      }
    }
    assert r.outputs[0] in r.outputs;
  }

  lemma {:induction false} StepSupplies(extended: seq<Record>, r: Record, outputs: seq<Name>, args: seq<Math>)
    requires r.outputs == Tensors(r.layer, outputs) && 0 <= r.id < |extended|
    requires Plain(Env(extended), r.id) && forall t :: t in r.outputs ==> HasQuery(extended, r.id, t)
    requires forall k: nat :: k < |r.outputs| ==> Means(extended, r.id, r.outputs[k], Outcome(r.kind, r.op, k, args))
    ensures forall k: nat :: k < |outputs| ==> Holds(extended, r.id, Tensor(r.layer, outputs[k]), Outcome(r.kind, r.op, k, args))
  {
    forall k: nat | k < |outputs|
      ensures Holds(extended, r.id, Tensor(r.layer, outputs[k]), Outcome(r.kind, r.op, k, args))
    {
      assert r.outputs[k] in r.outputs;
      assert HasQuery(extended, r.id, r.outputs[k]);
    }
  }

  lemma {:induction false} StepSpare(records: seq<Record>, r: Record, inputs: seq<Name>, outputs: seq<Name>)
    requires r.inputs == Tensors(r.layer, inputs) && r.outputs == Tensors(r.layer, outputs)
    ensures StepLeaves(records, records + [r], r.layer, r.deps, inputs, r.id, outputs)
  {
    assert (records + [r])[..|records|] == records;
    forall p | Spare(records + [r], p)
      ensures (Spare(records, p) && !(p.0 in r.deps && p.1.layer == r.layer && p.1.name in inputs))
           || (p.0 == r.id && p.1.layer == r.layer && p.1.name in outputs)
    {
      if Makes(r, p) {
        var k :| 0 <= k < |outputs| && r.outputs[k] == p.1;
        assert outputs[k] in outputs;
      } else if p.1.layer == r.layer && p.1.name in inputs {
        var k :| 0 <= k < |inputs| && inputs[k] == p.1.name;
        assert r.inputs[k] == p.1;
      }
    }
  }

  /** A record of the right shape that follows an attention block extends it. */
  lemma {:induction false} AddRecord(rs: seq<Record>, r: Record, args: seq<Math>, scope: Scope)
    requires AttentionBlock(rs, scope) && r.id == |rs|
    requires Follows(Env(rs), r, true) && AttentionShape(r) && TilesInScope(r, scope)
    requires rs != [] || IsQueryResidency(r)
    requires IsReduction(r) ==> multiset(Consumed(rs) + r.deps) <= multiset(Contexts(rs))
    requires |args| == |r.inputs| && forall j: nat :: j < |args| ==> Finds(rs, r.id, r.deps, r.inputs[j], args[j])
    ensures Continued(rs, rs + [r], scope)
    ensures forall t :: t in r.outputs ==> HasQuery(rs + [r], r.id, t)
    ensures (forall t :: t in r.outputs ==> !QueryOperand(t.name)) ==> Plain(Env(rs + [r]), r.id)
    ensures forall k: nat :: k < |r.outputs| ==> Means(rs + [r], r.id, r.outputs[k], Outcome(r.kind, r.op, k, args))
    ensures Requests(rs + [r]) == Requests(rs) + MacRequests(r)
    ensures Consumed(rs + [r]) == if IsReduction(r) then Consumed(rs) + r.deps else Consumed(rs)
    ensures Contexts(rs + [r]) == if r.kind.AttentionContext? then Contexts(rs) + [r.id] else Contexts(rs)
    ensures Reductions(rs + [r]) == if IsReduction(r) then Reductions(rs) + [r.id] else Reductions(rs)
  {
    EmitSupplies(rs, r);
    EmittedResults(rs, r);
    EmittedShapes(rs, r, scope);
    EmittedValues(rs, r, args);
  }

  /** A record with one output that is neither a context nor a reduction. */
  lemma {:induction false} AddPlain(rs: seq<Record>, r: Record, args: seq<Math>, scope: Scope)
    requires AttentionBlock(rs, scope) && r.id == |rs|
    requires Follows(Env(rs), r, true) && AttentionShape(r) && TilesInScope(r, scope)
    requires rs != [] || IsQueryResidency(r)
    requires !IsReduction(r) && !r.kind.AttentionContext? && |r.outputs| == 1
    requires |args| == |r.inputs| && forall j: nat :: j < |args| ==> Finds(rs, r.id, r.deps, r.inputs[j], args[j])
    ensures Continued(rs, rs + [r], scope) && SameResults(rs, rs + [r])
    ensures Requests(rs + [r]) == Requests(rs) + MacRequests(r)
    ensures HoldsQuery(rs + [r], r.id, r.outputs[0], Outcome(r.kind, r.op, 0, args))
    ensures !QueryOperand(r.outputs[0].name) ==> Holds(rs + [r], r.id, r.outputs[0], Outcome(r.kind, r.op, 0, args))
  {
    AddRecord(rs, r, args, scope);
    var t := r.outputs[0];
    assert t in r.outputs;
    assert HasQuery(rs + [r], r.id, t) && Means(rs + [r], r.id, t, Outcome(r.kind, r.op, 0, args));
  }

  lemma {:induction false} EmitSupplies(rs: seq<Record>, r: Record)
    requires Block(rs) && r.id == |rs| && Follows(Env(rs), r, true)
    ensures Block(rs + [r]) && KeepsValues(rs, rs + [r]) && KeepsQueryValues(rs, rs + [r])
    ensures forall d {:trigger Plain(Env(rs + [r]), d)} :: Plain(Env(rs), d) ==> Plain(Env(rs + [r]), d)
    ensures forall t :: t in r.outputs ==> HasQuery(rs + [r], r.id, t)
    ensures (forall t :: t in r.outputs ==> !QueryOperand(t.name)) ==> Plain(Env(rs + [r]), r.id)
    ensures Requests(rs + [r]) == Requests(rs) + MacRequests(r)
  {
    Emit(rs, r);
    ValuesKept(rs, rs + [r]);
    QueryValuesKept(rs, rs + [r]);
    Append(map[], rs, r, true);
    forall t | t in r.outputs ensures HasQuery(rs + [r], r.id, t) {
      assert Supplies(Env(rs + [r]), r.id, t);
    }
  }

  lemma {:induction false} EmittedValues(rs: seq<Record>, r: Record, args: seq<Math>)
    requires r.id == |rs| && |args| == |r.inputs| && forall j: nat :: j < |args| ==> Finds(rs, r.id, r.deps, r.inputs[j], args[j])
    ensures forall k: nat :: k < |r.outputs| ==> Means(rs + [r], r.id, r.outputs[k], Outcome(r.kind, r.op, k, args))
  {
    forall k: nat | k < |r.outputs|
      ensures Means(rs + [r], r.id, r.outputs[k], Outcome(r.kind, r.op, k, args))
    {
      SnocMeans(rs, r, k, args);
    }
  }

  lemma {:induction false} EmittedShapes(rs: seq<Record>, r: Record, scope: Scope)
    requires Shaped(rs, scope) && AttentionShape(r) && TilesInScope(r, scope)
    ensures Shaped(rs + [r], scope)
  {
    assert (rs + [r])[..|rs|] == rs;
  }

  lemma {:induction false} EmittedResults(rs: seq<Record>, r: Record)
    requires multiset(Consumed(rs)) <= multiset(Contexts(rs))
    requires IsReduction(r) ==> multiset(Consumed(rs) + r.deps) <= multiset(Contexts(rs))
    ensures Consumed(rs + [r]) == if IsReduction(r) then Consumed(rs) + r.deps else Consumed(rs)
    ensures Contexts(rs + [r]) == if r.kind.AttentionContext? then Contexts(rs) + [r.id] else Contexts(rs)
    ensures Reductions(rs + [r]) == if IsReduction(r) then Reductions(rs) + [r.id] else Reductions(rs)
    ensures multiset(Consumed(rs + [r])) <= multiset(Contexts(rs + [r]))
  {
    FlatMapAppend(ConsumedBy, rs, r);
    FlatMapAppend(ContextId, rs, r);
    FlatMapAppend(ReductionId, rs, r);
  }

  function Tensors(layer: nat, names: seq<Name>): seq<Tensor> {
    seq(|names|, j requires 0 <= j < |names| => Tensor(layer, names[j]))
  }

  function QueryRecord(id: int, layer: nat, query: Name): Record {
    Record(id, PIMOperandResidency, layer, QOperandResidency,
           [Tensor(layer, query)], [Tensor(layer, Visible(query))], [], 1)
  }

  lemma {:induction false} QueryRecordFits(rs: seq<Record>, layer: nat, query: Name)
    requires query.HeadQuery? || query.HeadQueryTile?
    requires Block(rs)
    ensures var r := QueryRecord(|rs|, layer, query);
      && Follows(Env(rs), r, true) && AttentionShape(r) && OwnLayer(r)
      && Tensor(layer, Visible(query)) in r.outputs && Finds(rs, r.id, r.deps, r.inputs[0], Given(query))
  {
    assert QueryRecord(|rs|, layer, query).outputs[0] == Tensor(layer, Visible(query));
  }

  /** `_emit_q_operand_residency_per_head`. */
  method QueryResidency(records: seq<Record>, layer: nat, query: Name, ghost scope: Scope)
      returns (extended: seq<Record>, id: int)
    requires AttentionBlock(records, scope) && layer < scope.layers
    requires query.HeadQuery? || query.HeadQueryTile?
    ensures id == |records| && Continued(records, extended, scope)
    ensures HoldsQuery(extended, id, Tensor(layer, Visible(query)), Computed(QOperandResidency, [Given(query)]))
    ensures SameWork(records, extended) && |extended| == |records| + 1
    ensures Leaves(records, extended, {}, {(id, Tensor(layer, Visible(query)))})
  {
    id := |records|;
    var r := QueryRecord(id, layer, query);
    QueryRecordFits(records, layer, query);
    AddPlain(records, r, [Given(query)], scope);
    SpareSnoc(records, r, {}, {(id, Tensor(layer, Visible(query)))});
    extended := records + [r];
  }

  ghost predicate SameWork(before: seq<Record>, after: seq<Record>) {
    Requests(after) == Requests(before) && SameResults(before, after)
  }

  ghost predicate SameResults(before: seq<Record>, after: seq<Record>) {
    Contexts(after) == Contexts(before) && Consumed(after) == Consumed(before) && Reductions(after) == Reductions(before)
  }

  lemma {:induction false} ContinuedThrough(a: seq<Record>, b: seq<Record>, c: seq<Record>, scope: Scope)
    requires Continued(a, b, scope) && Continued(b, c, scope)
    ensures Continued(a, c, scope)
  {
    forall id, t, e | Holds(a, id, t, e) ensures Holds(c, id, t, e) {
      assert Holds(b, id, t, e);
    }
    forall id, t, e | HoldsQuery(a, id, t, e) ensures HoldsQuery(c, id, t, e) {
      assert HoldsQuery(b, id, t, e);
    }
    forall d | Plain(Env(a), d) ensures Plain(Env(c), d) {
      assert Plain(Env(b), d);
    }
  }

  // ---- results that nothing has read yet ----

  /** A reduction, or a context that no reduction reads. */
  ghost predicate TerminalIn(rs: seq<Record>, x: int) {
    x in TerminalIds(rs)
  }

  /** Whatever nobody has read is a result, or one of `pending`. */
  ghost predicate Settled(rs: seq<Record>, pending: set<Product>) {
    forall p {:trigger Spare(rs, p)} :: Spare(rs, p) ==> TerminalIn(rs, p.0) || p in pending
  }

  ghost predicate KeepsTerminals(before: seq<Record>, after: seq<Record>) {
    forall x {:trigger TerminalIn(after, x)} :: TerminalIn(before, x) ==> TerminalIn(after, x)
  }

  lemma {:induction false} SameTerminals(before: seq<Record>, after: seq<Record>)
    requires SameResults(before, after)
    ensures KeepsTerminals(before, after) && KeepsTerminals(after, before)
  {
  }

  lemma {:induction false} SettledAfter(before: seq<Record>, after: seq<Record>, pending: set<Product>, taken: set<Product>, made: set<Product>)
    requires Settled(before, pending) && KeepsTerminals(before, after) && Leaves(before, after, taken, made)
    ensures Settled(after, (pending - taken) + made)
  {
    forall p | Spare(after, p)
      ensures TerminalIn(after, p.0) || p in (pending - taken) + made
    {
      if p !in made {
        assert Spare(before, p);
        assert TerminalIn(before, p.0) ==> TerminalIn(after, p.0);
      }
    }
  }

  // ---- what one softmax covers ----

  /** The tiles of a decode head, or the key tiles a prefill query tile may attend to. */
  datatype Part = Part(head: nat, query: Option<nat>, tiles: seq<nat>) {
    /** Operand that holds the values of a tile. */
    function ValueName(tile: nat): Name {
      if query.None? then Resident(CacheTile(head, tile, false)) else Visible(PromptTile(head, false, tile))
    }

    function QueryMath(): Math {
      Computed(QOperandResidency, [Given(if query.None? then HeadQuery(head) else HeadQueryTile(head, query.value))])
    }

    /** Keys of a tile: cached for a decode head, computed from the prompt otherwise. */
    function KeyMath(tile: nat): Math {
      if query.None? then Given(CacheTile(head, tile, true)) else Computed(PrefillTileResidency(true), [Given(PromptTile(head, true, tile))])
    }

    function ValueMath(tile: nat): Math {
      if query.None? then Given(CacheTile(head, tile, false)) else Computed(PrefillTileResidency(false), [Given(PromptTile(head, false, tile))])
    }

    /** The record that ends the part: its only context, or the reduction of several. */
    function EndName(): Name {
      if |tiles| == 1 then ContextPart(head, query, tiles[0]) else ReducedContext(head, query)
    }

    /** Attention of the query to the tiles' keys, over the tiles' values. */
    function Attend(): Math {
      EndMath(ContextArgs(this, WeightArgs(ScoreArgs(this))))
    }
  }

  function ScoreMath(q: Math, k: Math): Math {
    Computed(ScoreOp, [q, k])
  }

  function ScoreArgs(part: Part): (args: seq<Math>)
    ensures |args| == |part.tiles|
  {
    seq(|part.tiles|, j requires 0 <= j < |part.tiles| => ScoreMath(part.QueryMath(), part.KeyMath(part.tiles[j])))
  }

  /** The weights that one softmax makes of all scores. */
  function WeightArgs(scores: seq<Math>): (args: seq<Math>)
    ensures |args| == |scores|
  {
    seq(|scores|, j requires 0 <= j < |scores| => Share(j, Computed(SoftmaxOp, scores)))
  }

  function ContextMath(w: Math, v: Math): Math {
    Computed(ContextOp, [w, v])
  }

  function ContextArgs(part: Part, weights: seq<Math>): (args: seq<Math>)
    requires |weights| == |part.tiles|
    ensures |args| == |part.tiles|
  {
    seq(|part.tiles|, j requires 0 <= j < |part.tiles| => ContextMath(weights[j], part.ValueMath(part.tiles[j])))
  }

  function EndMath(contexts: seq<Math>): Math {
    if |contexts| == 1 then contexts[0] else Computed(ContextReduction, contexts)
  }

  /** The softmax of a query's scores. */
  function WeightsOf(q: Math, keys: seq<Math>): Math {
    Computed(SoftmaxOp, seq(|keys|, j requires 0 <= j < |keys| => Computed(ScoreOp, [q, keys[j]])))
  }

  /** Attention of a query to keys, over values: the softmax of its scores weighs the
      values, and the weighed values are added up. */
  function AttendOver(q: Math, keys: seq<Math>, values: seq<Math>): Math
    requires |keys| == |values|
  {
    var n := |keys|;
    var contexts := seq(n, j requires 0 <= j < n => Computed(ContextOp, [Share(j, WeightsOf(q, keys)), values[j]]));
    if n == 1 then contexts[0] else Computed(ContextReduction, contexts)
  }

  function KeyMaths(part: Part): (keys: seq<Math>)
    ensures |keys| == |part.tiles|
  {
    seq(|part.tiles|, j requires 0 <= j < |part.tiles| => part.KeyMath(part.tiles[j]))
  }

  function ValueMaths(part: Part): (values: seq<Math>)
    ensures |values| == |part.tiles|
  {
    seq(|part.tiles|, j requires 0 <= j < |part.tiles| => part.ValueMath(part.tiles[j]))
  }

  lemma {:induction false} PartAttends(part: Part)
    ensures part.Attend() == AttendOver(part.QueryMath(), KeyMaths(part), ValueMaths(part))
  {
    var n, keys, values := |part.tiles|, KeyMaths(part), ValueMaths(part);
    var q := part.QueryMath();
    assert ScoreArgs(part) == seq(n, j requires 0 <= j < n => Computed(ScoreOp, [q, keys[j]]));
    assert WeightsOf(q, keys) == Computed(SoftmaxOp, ScoreArgs(part));
    var contexts := seq(n, j requires 0 <= j < n => Computed(ContextOp, [Share(j, WeightsOf(q, keys)), values[j]]));
    assert ContextArgs(part, WeightArgs(ScoreArgs(part))) == contexts;
  }

  function ScoreNames(part: Part): (names: seq<Name>)
    ensures |names| == |part.tiles|
  {
    seq(|part.tiles|, j requires 0 <= j < |part.tiles| => ScorePart(part.head, part.query, part.tiles[j]))
  }

  function ProbabilityNames(part: Part): (names: seq<Name>)
    ensures |names| == |part.tiles|
  {
    seq(|part.tiles|, j requires 0 <= j < |part.tiles| => ProbabilityPart(part.head, part.query, part.tiles[j]))
  }

  function ContextNames(part: Part): (names: seq<Name>)
    ensures |names| == |part.tiles|
  {
    seq(|part.tiles|, j requires 0 <= j < |part.tiles| => ContextPart(part.head, part.query, part.tiles[j]))
  }

  /** The record with id `ids[j]` supplies `names[j]`, computed as `args[j]`. */
  ghost predicate HoldsEach(rs: seq<Record>, ids: seq<int>, layer: nat, names: seq<Name>, args: seq<Math>) {
    |ids| == |names| == |args| && forall j :: 0 <= j < |ids| ==> Holds(rs, ids[j], Tensor(layer, names[j]), args[j])
  }

  lemma {:induction false} HoldsEachKept(before: seq<Record>, after: seq<Record>, ids: seq<int>, layer: nat, names: seq<Name>, args: seq<Math>)
    requires HoldsEach(before, ids, layer, names, args) && KeepsValues(before, after)
    ensures HoldsEach(after, ids, layer, names, args)
  {
    forall j | 0 <= j < |ids| ensures Holds(after, ids[j], Tensor(layer, names[j]), args[j]) {
      assert Holds(before, ids[j], Tensor(layer, names[j]), args[j]);
    }
  }
}
