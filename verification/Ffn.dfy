/** `generate_ffn_records`: the dense feed-forward block. */
module Ffn {
  import opened Blocks
  import opened CausalTiling
  import opened DataFlow
  import opened Manifests
  import opened Records
  import opened Relinking
  import opened Results

  function ProjectionRequests(m: FfnManifest): int {
    NumRequests(m.seqLen * m.hiddenSize * m.ffnHiddenSize, m.datatyp)
  }

  /** FFN_VARIANT_PROJECTION_COUNTS. */
  function ProjectionCount(v: Variant): int {
    if v.Relu2? then 2 else 3
  }

  function UpRequests(m: FfnManifest): int {
    NumRequests(m.seqLen * m.ffnHiddenSize * m.hiddenSize, m.datatyp)
  }

  lemma {:induction false} UpAndDownAgree(m: FfnManifest)
    ensures UpRequests(m) == ProjectionRequests(m)
  {
    assert m.seqLen * m.ffnHiddenSize * m.hiddenSize == m.seqLen * m.hiddenSize * m.ffnHiddenSize;
  }

  lemma {:induction false} NextLayer(n: int, c: int, w: int)
    ensures (n + 1) * (c * w) == n * (c * w) + c * w
    ensures 2 * w == w + w && 3 * w == w + w + w
  {
  }

  // ---- what the block computes ----

  /** A tile of the hidden activations, as it enters the block. */
  function HiddenTileMath(i: nat): Math {
    Computed(HiddenTileSetup, [Given(HiddenTile(i))])
  }

  /** The hidden activations, joined from `n` tiles. */
  function HiddenMath(n: nat): Math {
    Joined(seq(n, i requires 0 <= i < n => HiddenTileMath(i)))
  }

  function ProjectionMath(p: Projection, x: Math): Math {
    Computed(FfnProjectionOp(p), [x, Given(FfnWeight(p))])
  }

  /** Between the up and the down projection: the activated gate times up, or with a
      ReLU the activated up. */
  function IntermediateMath(variant: Variant, x: Math): Math {
    if variant.Relu2? then Computed(FfnActivation, [ProjectionMath(Up, x)])
    else Computed(FfnGatedMultiply, [Computed(FfnActivation, [ProjectionMath(Gate, x)]), ProjectionMath(Up, x)])
  }

  function FfnMath(variant: Variant, x: Math): Math {
    ProjectionMath(Down, IntermediateMath(variant, x))
  }

  // ---- the records ----

  ghost predicate TilesHeld(rs: seq<Record>, layer: nat, ids: seq<int>, residents: seq<Name>) {
    |ids| == |residents| && forall j: nat :: j < |ids| ==>
      Holds(rs, ids[j], Tensor(layer, residents[j]), HiddenTileMath(j)) && !Port(residents[j])
  }

  lemma {:induction false} TilesStillHeld(before: seq<Record>, after: seq<Record>, layer: nat, ids: seq<int>, residents: seq<Name>)
    requires TilesHeld(before, layer, ids, residents) && KeepsValues(before, after)
    ensures TilesHeld(after, layer, ids, residents)
  {
    forall j: nat | j < |ids|
      ensures Holds(after, ids[j], Tensor(layer, residents[j]), HiddenTileMath(j))
    {
      assert Holds(before, ids[j], Tensor(layer, residents[j]), HiddenTileMath(j));
    }
  }

  /** The tiles set up so far. */
  ghost predicate TilesSet(records: seq<Record>, extended: seq<Record>, layer: nat, ids: seq<int>, residents: seq<Name>, scope: Scope) {
    && QuietBlock(extended, scope) && Requests(extended) == Requests(records)
    && TilesHeld(extended, layer, ids, residents) && KeepsValues(records, extended)
    && Leaves(records, extended, {}, Products(layer, ids, residents))
  }

  lemma {:induction false} OneMoreTile(records: seq<Record>, before: seq<Record>, after: seq<Record>, layer: nat, ids: seq<int>, residents: seq<Name>,
                    id: int, scope: Scope)
    requires TilesSet(records, before, layer, ids, residents, scope)
    requires QuietBlock(after, scope) && Requests(after) == Requests(before)
    requires Extends(before, after, id, Tensor(layer, Resident(HiddenTile(|ids|))), HiddenTileMath(|ids|))
    requires Leaves(before, after, {}, {(id, Tensor(layer, Resident(HiddenTile(|ids|))))})
    ensures TilesSet(records, after, layer, ids + [id], residents + [Resident(HiddenTile(|ids|))], scope)
  {
    TilesStillHeld(before, after, layer, ids, residents);
    MoreProducts(layer, ids, residents, id, Resident(HiddenTile(|ids|)));
  }

  /** Hidden activation tiles: one data move for each tile. */
  method HiddenTiles(records: seq<Record>, layer: nat, tiles: seq<Range>, ghost scope: Scope)
      returns (extended: seq<Record>, ids: seq<int>, residents: seq<Name>)
    requires QuietBlock(records, scope) && layer < scope.layers && scope.tiles
    ensures |ids| == |tiles| && TilesSet(records, extended, layer, ids, residents, scope)
  {
    extended, ids, residents := records, [], [];
    for i := 0 to |tiles|
      invariant |ids| == i && TilesSet(records, extended, layer, ids, residents, scope)
    {
      ghost var before := extended;
      var id;
      extended, id := DataMove(extended, layer, HiddenTileSetup, HiddenTile(i), Resident(HiddenTile(i)), scope);
      OneMoreTile(records, before, extended, layer, ids, residents, id, scope);
      ids := ids + [id];
      residents := residents + [Resident(HiddenTile(i))];
    }
  }

  /** The up or gate projection and the residency of its result. */
  method FfnProject(records: seq<Record>, layer: nat, p: Projection, reuse: int, weight: int, work: int, ghost x: Math, ghost scope: Scope)
      returns (extended: seq<Record>, id: int)
    requires QuietBlock(records, scope) && layer < scope.layers && scope.tiles
    requires Holds(records, reuse, Tensor(layer, HiddenReused), x)
    requires Holds(records, weight, Tensor(layer, Resident(FfnWeight(p))), Given(FfnWeight(p)))
    ensures QuietBlock(extended, scope) && Requests(extended) == Requests(records) + work
    ensures Extends(records, extended, id, Tensor(layer, Visible(FfnIntermediate(p))), ProjectionMath(p, x))
    ensures Leaves(records, extended, {(reuse, Tensor(layer, HiddenReused)), (weight, Tensor(layer, Resident(FfnWeight(p))))},
                   {(id, Tensor(layer, Visible(FfnIntermediate(p))))})
  {
    var product;
    extended, product := Binary(records, FFNProjection, layer, FfnProjectionOp(p), reuse, HiddenReused, weight,
      Resident(FfnWeight(p)), FfnIntermediate(p), work, x, Given(FfnWeight(p)), scope);
    extended, id := Unary(extended, PIMOperandResidency, layer, FfnIntermediateResidency(p), product,
      FfnIntermediate(p), Visible(FfnIntermediate(p)), 1, ProjectionMath(p, x), scope);
  }

  /** The activated gate and its residency. */
  method Activate(records: seq<Record>, layer: nat, gate: int, ghost x: Math, ghost scope: Scope)
      returns (extended: seq<Record>, id: int)
    requires QuietBlock(records, scope) && layer < scope.layers && scope.tiles
    requires Holds(records, gate, Tensor(layer, Visible(FfnIntermediate(Gate))), x)
    ensures QuietBlock(extended, scope) && Requests(extended) == Requests(records)
    ensures Extends(records, extended, id, Tensor(layer, Visible(FfnActivated)), Computed(FfnActivation, [x]))
    ensures Leaves(records, extended, {(gate, Tensor(layer, Visible(FfnIntermediate(Gate))))}, {(id, Tensor(layer, Visible(FfnActivated)))})
  {
    var activation;
    extended, activation := Unary(records, PIMElementwise, layer, FfnActivation, gate, Visible(FfnIntermediate(Gate)), FfnActivated, 1, x, scope);
    extended, id := Unary(extended, PIMOperandResidency, layer, FfnActivatedResidency, activation, FfnActivated, Visible(FfnActivated), 1,
      Computed(FfnActivation, [x]), scope);
  }

  /** Activation of the gate and its product with up. */
  method GatedProduct(records: seq<Record>, layer: nat, gate: int, up: int, ghost x: Math, ghost y: Math, ghost scope: Scope)
      returns (extended: seq<Record>, id: int)
    requires QuietBlock(records, scope) && layer < scope.layers && scope.tiles
    requires Holds(records, gate, Tensor(layer, Visible(FfnIntermediate(Gate))), x)
    requires Holds(records, up, Tensor(layer, Visible(FfnIntermediate(Up))), y)
    ensures QuietBlock(extended, scope) && Requests(extended) == Requests(records)
    ensures Extends(records, extended, id, Tensor(layer, FfnProduct), Computed(FfnGatedMultiply, [Computed(FfnActivation, [x]), y]))
    ensures Leaves(records, extended, {(gate, Tensor(layer, Visible(FfnIntermediate(Gate)))), (up, Tensor(layer, Visible(FfnIntermediate(Up))))},
                   {(id, Tensor(layer, FfnProduct))})
  {
    var activated;
    extended, activated := Activate(records, layer, gate, x, scope);
    extended, id := Binary(extended, PIMElementwise, layer, FfnGatedMultiply, activated, Visible(FfnActivated),
      up, Visible(FfnIntermediate(Up)), FfnProduct, 1, Computed(FfnActivation, [x]), y, scope);
  }

  /** The records between the up projection's residency and the down projection:
      gate, activation and product when gated, a ReLU otherwise. */
  method Intermediate(records: seq<Record>, layer: nat, variant: Variant, reuse: int, gateWeight: int, up: int, upWork: int,
                      ghost x: Math, ghost scope: Scope)
      returns (extended: seq<Record>, id: int, intermediate: Name)
    requires QuietBlock(records, scope) && layer < scope.layers && scope.tiles
    requires Holds(records, up, Tensor(layer, Visible(FfnIntermediate(Up))), ProjectionMath(Up, x))
    requires !variant.Relu2? ==>
      && Holds(records, reuse, Tensor(layer, HiddenReused), x)
      && Holds(records, gateWeight, Tensor(layer, Resident(FfnWeight(Gate))), Given(FfnWeight(Gate)))
    ensures QuietBlock(extended, scope)
    ensures Requests(extended) == Requests(records) + if variant.Relu2? then 0 else upWork
    ensures Extends(records, extended, id, Tensor(layer, intermediate), IntermediateMath(variant, x))
    ensures intermediate.FfnActivated? || intermediate.FfnProduct?
    ensures Leaves(records, extended, {(up, Tensor(layer, Visible(FfnIntermediate(Up))))} + GateWeight(variant, layer, gateWeight),
                   {(id, Tensor(layer, intermediate))})
  {
    if !variant.Relu2? {
      var gate;
      extended, gate := FfnProject(records, layer, Gate, reuse, gateWeight, upWork, x, scope);
      extended, id := GatedProduct(extended, layer, gate, up, ProjectionMath(Gate, x), ProjectionMath(Up, x), scope);
      intermediate := FfnProduct;
    } else {
      extended, id := Unary(records, PIMElementwise, layer, FfnActivation, up, Visible(FfnIntermediate(Up)), FfnActivated, 1,
        ProjectionMath(Up, x), scope);
      intermediate := FfnActivated;
    }
  }

  /** The resident gate weight, which only a gated block has. */
  ghost function GateWeight(variant: Variant, layer: nat, gate: int): set<Product> {
    if variant.Relu2? then {} else {(gate, Tensor(layer, Resident(FfnWeight(Gate))))}
  }

  /** One weight residency. */
  method FfnResidency(records: seq<Record>, layer: nat, p: Projection, ghost scope: Scope)
      returns (extended: seq<Record>, id: int)
    requires QuietBlock(records, scope) && layer < scope.layers && scope.tiles
    ensures QuietBlock(extended, scope) && Requests(extended) == Requests(records)
    ensures Extends(records, extended, id, Tensor(layer, Resident(FfnWeight(p))), Given(FfnWeight(p)))
    ensures Leaves(records, extended, {}, {(id, Tensor(layer, Resident(FfnWeight(p))))})
  {
    extended, id := DataMove(records, layer, FfnWeightResidency(p), FfnWeight(p), Resident(FfnWeight(p)), scope);
  }

  /** Weight residencies, in the order up, gate (when gated), down. */
  method FfnWeights(records: seq<Record>, layer: nat, m: FfnManifest, ghost scope: Scope)
      returns (extended: seq<Record>, up: int, gate: int, down: int)
    requires QuietBlock(records, scope) && layer < scope.layers && scope.tiles
    ensures QuietBlock(extended, scope) && Requests(extended) == Requests(records)
    ensures KeepsValues(records, extended)
    ensures Holds(extended, up, Tensor(layer, Resident(FfnWeight(Up))), Given(FfnWeight(Up)))
    ensures !m.variant.Relu2? ==> Holds(extended, gate, Tensor(layer, Resident(FfnWeight(Gate))), Given(FfnWeight(Gate)))
    ensures Holds(extended, down, Tensor(layer, Resident(FfnWeight(Down))), Given(FfnWeight(Down)))
    ensures Leaves(records, extended, {}, {(up, Tensor(layer, Resident(FfnWeight(Up)))), (down, Tensor(layer, Resident(FfnWeight(Down))))}
                                          + GateWeight(m.variant, layer, gate))
  {
    extended, up := FfnResidency(records, layer, Up, scope);
    gate := up;
    if !m.variant.Relu2? {
      extended, gate := FfnResidency(extended, layer, Gate, scope);
    }
    extended, down := FfnResidency(extended, layer, Down, scope);
  }

  /** The bank-local intermediate and the down projection. */
  method FfnDown(records: seq<Record>, layer: nat, source: int, intermediate: Name, weight: int, work: int, ghost y: Math, ghost scope: Scope)
      returns (extended: seq<Record>, id: int)
    requires QuietBlock(records, scope) && layer < scope.layers && scope.tiles
    requires Holds(records, source, Tensor(layer, intermediate), y) && !Port(intermediate)
    requires Holds(records, weight, Tensor(layer, Resident(FfnWeight(Down))), Given(FfnWeight(Down)))
    ensures QuietBlock(extended, scope) && Requests(extended) == Requests(records) + work
    ensures Extends(records, extended, id, Tensor(layer, HiddenOut), ProjectionMath(Down, y))
    ensures Leaves(records, extended, {(source, Tensor(layer, intermediate)), (weight, Tensor(layer, Resident(FfnWeight(Down))))},
                   {(id, Tensor(layer, HiddenOut))})
  {
    var local;
    extended, local := Unary(records, PIMOperandResidency, layer, FfnBankLocalResidency, source, intermediate, BankLocal(intermediate), 1,
      y, scope);
    extended, id := Binary(extended, FFNProjection, layer, FfnProjectionOp(Down), local, BankLocal(intermediate), weight,
      Resident(FfnWeight(Down)), HiddenOut, work, y, Given(FfnWeight(Down)), scope);
  }

  lemma {:induction false} TilesFit(rs: seq<Record>, layer: nat, setups: seq<int>, residents: seq<Name>, args: seq<Math>)
    requires TilesHeld(rs, layer, setups, residents) && |args| == |setups| && Joined(args) == HiddenMath(|setups|)
    ensures forall j :: 0 <= j < |setups| ==> Fits(rs, layer, residents[j], setups[j], args[j])
  {
    forall j: nat | j < |setups|
      ensures Fits(rs, layer, residents[j], setups[j], args[j])
    {
      assert Holds(rs, setups[j], Tensor(layer, residents[j]), HiddenTileMath(j));
    }
  }

  /** Hidden tiles joined for reuse, and the weights. */
  method FfnOperands(records: seq<Record>, layer: nat, m: FfnManifest, ghost scope: Scope)
      returns (extended: seq<Record>, reuse: int, up: int, gate: int, down: int)
    requires QuietBlock(records, scope) && layer < scope.layers && scope.tiles && m.activationTile > 0
    ensures QuietBlock(extended, scope) && Requests(extended) == Requests(records)
    ensures Holds(extended, reuse, Tensor(layer, HiddenReused), HiddenMath(|PredictedRanges(m.hiddenSize, m.activationTile)|))
    ensures Holds(extended, up, Tensor(layer, Resident(FfnWeight(Up))), Given(FfnWeight(Up)))
    ensures !m.variant.Relu2? ==> Holds(extended, gate, Tensor(layer, Resident(FfnWeight(Gate))), Given(FfnWeight(Gate)))
    ensures Holds(extended, down, Tensor(layer, Resident(FfnWeight(Down))), Given(FfnWeight(Down)))
    ensures KeepsValues(records, extended)
    ensures Leaves(records, extended, {}, OperandsLeft(m.variant, layer, reuse, up, gate, down))
  {
    var tiles := TileRanges(m.hiddenSize, m.activationTile);
    var setups, residents;
    extended, setups, residents := HiddenTiles(records, layer, tiles, scope);
    ghost var tiled := extended;
    extended, up, gate, down := FfnWeights(extended, layer, m, scope);
    TilesStillHeld(tiled, extended, layer, setups, residents);
    ghost var args := seq(|setups|, i requires 0 <= i < |setups| => HiddenTileMath(i));
    TilesFit(extended, layer, setups, residents, args);
    ghost var weighted := extended;
    extended, reuse := Step(extended, PIMOperandReuse, layer, HiddenReuse, setups, residents, HiddenReused, 1, setups, args, scope);
    OperandsLeave(records, tiled, weighted, extended, layer, m.variant, setups, residents, reuse, up, gate, down);
  }

  ghost function OperandsLeft(variant: Variant, layer: nat, reuse: int, up: int, gate: int, down: int): set<Product> {
    {(reuse, Tensor(layer, HiddenReused)), (up, Tensor(layer, Resident(FfnWeight(Up)))), (down, Tensor(layer, Resident(FfnWeight(Down))))}
    + GateWeight(variant, layer, gate)
  }

  lemma {:induction false} OperandsLeave(records: seq<Record>, tiled: seq<Record>, weighted: seq<Record>, reused: seq<Record>, layer: nat, variant: Variant,
                      setups: seq<int>, residents: seq<Name>, reuse: int, up: int, gate: int, down: int)
    requires |setups| == |residents| && Leaves(records, tiled, {}, Products(layer, setups, residents))
    requires Leaves(tiled, weighted, {}, {(up, Tensor(layer, Resident(FfnWeight(Up)))), (down, Tensor(layer, Resident(FfnWeight(Down))))}
                                         + GateWeight(variant, layer, gate))
    requires Leaves(weighted, reused, Products(layer, setups, residents), {(reuse, Tensor(layer, HiddenReused))})
    ensures Leaves(records, reused, {}, OperandsLeft(variant, layer, reuse, up, gate, down))
  {
  }

  /** One layer: what it leaves over is its output alone, the gated or activated
      projections of the joined hidden tiles. */
  method FfnLayer(records: seq<Record>, layer: nat, m: FfnManifest, ghost scope: Scope) returns (extended: seq<Record>, last: int)
    requires QuietBlock(records, scope) && layer < scope.layers && scope.tiles && m.activationTile > 0
    ensures QuietBlock(extended, scope)
    ensures Requests(extended) == Requests(records)
      + UpRequests(m) + (if m.variant.Relu2? then 0 else UpRequests(m)) + ProjectionRequests(m)
    ensures Holds(extended, last, Tensor(layer, HiddenOut), FfnMath(m.variant, HiddenMath(|PredictedRanges(m.hiddenSize, m.activationTile)|)))
    ensures KeepsValues(records, extended)
    ensures Leaves(records, extended, {}, {(last, Tensor(layer, HiddenOut))})
  {
    ghost var x := HiddenMath(|PredictedRanges(m.hiddenSize, m.activationTile)|);
    var reuse, upWeight, gateWeight, downWeight, up, source, intermediate;
    extended, reuse, upWeight, gateWeight, downWeight := FfnOperands(records, layer, m, scope);
    ghost var supplied := extended;
    extended, up := FfnProject(extended, layer, Up, reuse, upWeight, UpRequests(m), x, scope);
    ghost var projected := extended;
    extended, source, intermediate := Intermediate(extended, layer, m.variant, reuse, gateWeight, up, UpRequests(m), x, scope);
    ghost var between := extended;
    extended, last := FfnDown(extended, layer, source, intermediate, downWeight, ProjectionRequests(m), IntermediateMath(m.variant, x), scope);
    LayerLeaves(records, supplied, projected, between, extended, layer, m.variant, reuse, upWeight, gateWeight, downWeight, up, source,
                intermediate, last);
  }

  lemma {:induction false} LayerLeaves(records: seq<Record>, supplied: seq<Record>, projected: seq<Record>, between: seq<Record>, done: seq<Record>, layer: nat,
                    variant: Variant, reuse: int, upWeight: int, gateWeight: int, downWeight: int, up: int, source: int, intermediate: Name, last: int)
    requires Leaves(records, supplied, {}, OperandsLeft(variant, layer, reuse, upWeight, gateWeight, downWeight))
    requires Leaves(supplied, projected, {(reuse, Tensor(layer, HiddenReused)), (upWeight, Tensor(layer, Resident(FfnWeight(Up))))},
                    {(up, Tensor(layer, Visible(FfnIntermediate(Up))))})
    requires Leaves(projected, between, {(up, Tensor(layer, Visible(FfnIntermediate(Up))))} + GateWeight(variant, layer, gateWeight),
                    {(source, Tensor(layer, intermediate))})
    requires Leaves(between, done, {(source, Tensor(layer, intermediate)), (downWeight, Tensor(layer, Resident(FfnWeight(Down))))},
                    {(last, Tensor(layer, HiddenOut))})
    ensures Leaves(records, done, {}, {(last, Tensor(layer, HiddenOut))})
  {
  }

  // ---- all layers ----

  /** Nothing is left over but the layers' outputs, and each is the network of its layer's
      hidden tiles. */
  ghost predicate FfnComputes(rs: seq<Record>, ends: seq<int>, m: FfnManifest) {
    && (forall p :: Spare(rs, p) ==> p in Ends(ends, HiddenOut))
    && (m.activationTile > 0 ==> forall l: nat :: l < |ends| ==>
          Holds(rs, ends[l], Tensor(l, HiddenOut), FfnMath(m.variant, HiddenMath(|PredictedRanges(m.hiddenSize, m.activationTile)|))))
  }

  lemma {:induction false} NextFfn(before: seq<Record>, after: seq<Record>, ends: seq<int>, last: int, m: FfnManifest)
    requires FfnComputes(before, ends, m) && m.activationTile > 0 && KeepsValues(before, after)
    requires Leaves(before, after, {}, {(last, Tensor(|ends|, HiddenOut))})
    requires Holds(after, last, Tensor(|ends|, HiddenOut), FfnMath(m.variant, HiddenMath(|PredictedRanges(m.hiddenSize, m.activationTile)|)))
    ensures FfnComputes(after, ends + [last], m)
  {
    var more := ends + [last];
    MoreEnds(ends, last, HiddenOut);
    forall l: nat | l < |more|
      ensures Holds(after, more[l], Tensor(l, HiddenOut), FfnMath(m.variant, HiddenMath(|PredictedRanges(m.hiddenSize, m.activationTile)|)))
    {
      assert l < |ends| ==> Holds(before, ends[l], Tensor(l, HiddenOut), FfnMath(m.variant, HiddenMath(|PredictedRanges(m.hiddenSize, m.activationTile)|)));
    }
  }

  /** The output of a layer waits for all of the layer's records: every hidden tile, every
      weight and every projection. */
  lemma {:induction false} OutputWaitsForLayer(rs: seq<Record>, ends: seq<int>, m: FfnManifest, i: nat)
    requires QuietBlock(rs, Scope(m.layers, true)) && FfnComputes(rs, ends, m) && i < |rs|
    ensures rs[i].layer < |ends| && Reaches(rs, ends[rs[i].layer], rs[i].id)
  {
    EndReaches(rs, Scope(m.layers, true), ends, HiddenOut, i);
  }

  /** `generate_ffn_records`.  Every output but the layers' own is read by a later record
      that depends on its maker, and each layer's output is the feed-forward network of
      its hidden tiles. */
  method GenerateFfn(m: FfnManifest) returns (r: Result<seq<Record>>, ghost ends: seq<int>)
    ensures r.Ok? <==> ValidFfn(m)
    ensures r.Ok? ==>
      && QuietBlock(r.value, Scope(m.layers, true))
      && Requests(r.value) == m.layers * (ProjectionCount(m.variant) * ProjectionRequests(m))
      && FfnComputes(r.value, ends, m) && |ends| == m.layers
  {
    ends := [];
    if !ValidFfn(m) {
      return Err(BadArgument), ends;
    }
    var records: seq<Record> := [];
    EmptyBlock();
    for layer := 0 to m.layers
      invariant QuietBlock(records, Scope(m.layers, true))
      invariant Requests(records) == layer * (ProjectionCount(m.variant) * ProjectionRequests(m))
      invariant FfnComputes(records, ends, m) && |ends| == layer
    {
      ghost var before := records;
      var last;
      records, last := FfnLayer(records, layer, m, Scope(m.layers, true));
      NextFfn(before, records, ends, last, m);
      ends := ends + [last];
      UpAndDownAgree(m);
      NextLayer(layer, ProjectionCount(m.variant), ProjectionRequests(m));
    }
    r := Ok(records);
  }
}
