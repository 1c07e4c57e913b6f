/** `generate_moe_records`: router, dispatch, selected experts, combine. */
module Moe {
  import opened Blocks
  import opened DataFlow
  import opened Division
  import opened Manifests
  import opened Records
  import opened Relinking
  import opened Results

  // ---- expert order ----

  function Tail<T>(s: seq<T>): (r: seq<T>)
    ensures |s| > 0 ==> |r| < |s|
  {
    if s == [] then [] else s[1..]
  }

  /** `s[::2]`; of `Tail(s)` it is `s[1::2]`. */
  function EveryOther<T>(s: seq<T>): (r: seq<T>)
    decreases |s|
  {
    if s == [] then [] else [s[0]] + EveryOther(Tail(Tail(s)))
  }

  function ExpertOrder(selected: seq<int>, overlap: bool): seq<int> {
    if overlap then EveryOther(selected) + EveryOther(Tail(selected)) else selected
  }

  lemma {:induction false} OddsAndEvens(s: seq<int>)
    ensures multiset(EveryOther(s)) + multiset(EveryOther(Tail(s))) == multiset(s)
    ensures |EveryOther(s)| + |EveryOther(Tail(s))| == |s|
    decreases |s|
  {
    if s != [] {
      OddsAndEvens(s[1..]);
      assert s == [s[0]] + s[1..];
    }
  }

  /** The overlapped schedule visits every selected expert exactly once. */
  lemma {:induction false} OverlapPermutesExperts(selected: seq<int>, overlap: bool)
    ensures multiset(ExpertOrder(selected, overlap)) == multiset(selected)
    ensures |ExpertOrder(selected, overlap)| == |selected|
  {
    OddsAndEvens(selected);
  }

  // ---- what the block computes ----

  /** The hidden activations, as they enter the block. */
  function RouterInputMath(): Math {
    Computed(RouterInputSetup, [Given(Hidden)])
  }

  function RouterMath(x: Math): Math {
    Computed(RouterProjection, [x, Given(RouterWeight)])
  }

  /** The tokens sent to the experts. */
  function DispatchedMath(x: Math): Math {
    Computed(ExpertDispatch, [Given(Hidden), Computed(TopkSelect, [RouterMath(x)])])
  }

  function ExpertProjected(e: nat, p: Projection, x: Math): Math {
    Computed(ExpertProjection(e, p), [x, Given(ExpertWeight(e, p))])
  }

  function ExpertProductMath(e: nat, up: Math, gate: Math): Math {
    Computed(ExpertGatedMultiply(e), [Computed(ExpertActivation(e), [gate]), up])
  }

  /** One expert: the down projection of its gated product. */
  function ExpertMath(e: nat, x: Math): Math {
    ExpertProjected(e, Down, ExpertProductMath(e, ExpertProjected(e, Up, x), ExpertProjected(e, Gate, x)))
  }

  function ExpertArgs(order: seq<int>, x: Math): (args: seq<Math>)
    ensures |args| == |order| && forall j :: 0 <= j < |order| && order[j] >= 0 ==> args[j] == ExpertMath(order[j], x)
  {
    seq(|order|, j requires 0 <= j < |order| => if order[j] >= 0 then ExpertMath(order[j], x) else x)
  }

  /** The experts' outputs, combined in schedule order; `x` enters the router. */
  function MoeMath(order: seq<int>, x: Math): Math {
    Computed(ExpertCombine, ExpertArgs(order, DispatchedMath(x)))
  }

  // ---- one expert ----

  /** Up or gate: a weight residency and a projection of the dispatched tokens. */
  method ExpertInput(records: seq<Record>, layer: nat, e: nat, p: Projection, dispatch: int, work: int, ghost x: Math, ghost scope: Scope)
      returns (extended: seq<Record>, id: int)
    requires QuietBlock(records, scope) && layer < scope.layers && !scope.tiles && !p.Down?
    requires Holds(records, dispatch, Tensor(layer, Dispatched), x)
    ensures QuietBlock(extended, scope)
    ensures Extends(records, extended, id, Tensor(layer, ExpertIntermediate(e, p)), ExpertProjected(e, p, x))
    ensures Requests(extended) == Requests(records) + work
    ensures Leaves(records, extended, {(dispatch, Tensor(layer, Dispatched))}, {(id, Tensor(layer, ExpertIntermediate(e, p)))})
  {
    var weight;
    extended, weight := DataMove(records, layer, ExpertWeightResidency(e, p), ExpertWeight(e, p), Resident(ExpertWeight(e, p)), scope);
    extended, id := Binary(extended, MoEExpertFFN, layer, ExpertProjection(e, p), dispatch, Dispatched, weight,
      Resident(ExpertWeight(e, p)), ExpertIntermediate(e, p), work, x, Given(ExpertWeight(e, p)), scope);
  }

  /** Activation of the gate and its product with up. */
  method ExpertGate(records: seq<Record>, layer: nat, e: nat, up: int, gate: int, ghost x: Math, ghost y: Math, ghost scope: Scope)
      returns (extended: seq<Record>, id: int)
    requires QuietBlock(records, scope) && layer < scope.layers && !scope.tiles
    requires Holds(records, up, Tensor(layer, ExpertIntermediate(e, Up)), x)
    requires Holds(records, gate, Tensor(layer, ExpertIntermediate(e, Gate)), y)
    ensures QuietBlock(extended, scope)
    ensures Extends(records, extended, id, Tensor(layer, ExpertGated(e)), ExpertProductMath(e, x, y))
    ensures Requests(extended) == Requests(records)
    ensures Leaves(records, extended, {(up, Tensor(layer, ExpertIntermediate(e, Up))), (gate, Tensor(layer, ExpertIntermediate(e, Gate)))},
                   {(id, Tensor(layer, ExpertGated(e)))})
  {
    var activation;
    extended, activation := Unary(records, PIMElementwise, layer, ExpertActivation(e), gate, ExpertIntermediate(e, Gate),
      ExpertActivated(e), 1, y, scope);
    extended, id := Binary(extended, PIMElementwise, layer, ExpertGatedMultiply(e), activation, ExpertActivated(e), up,
      ExpertIntermediate(e, Up), ExpertGated(e), 1, Computed(ExpertActivation(e), [y]), x, scope);
  }

  /** The gated product and its bank-local residency. */
  method ExpertProduct(records: seq<Record>, layer: nat, e: nat, up: int, gate: int, ghost x: Math, ghost y: Math, ghost scope: Scope)
      returns (extended: seq<Record>, id: int)
    requires QuietBlock(records, scope) && layer < scope.layers && !scope.tiles
    requires Holds(records, up, Tensor(layer, ExpertIntermediate(e, Up)), x)
    requires Holds(records, gate, Tensor(layer, ExpertIntermediate(e, Gate)), y)
    ensures QuietBlock(extended, scope)
    ensures Extends(records, extended, id, Tensor(layer, BankLocal(ExpertGated(e))), ExpertProductMath(e, x, y))
    ensures Requests(extended) == Requests(records)
    ensures Leaves(records, extended, {(up, Tensor(layer, ExpertIntermediate(e, Up))), (gate, Tensor(layer, ExpertIntermediate(e, Gate)))},
                   {(id, Tensor(layer, BankLocal(ExpertGated(e))))})
  {
    var gated;
    extended, gated := ExpertGate(records, layer, e, up, gate, x, y, scope);
    extended, id := Unary(extended, PIMOperandResidency, layer, ExpertIntermediateResidency(e), gated, ExpertGated(e),
      BankLocal(ExpertGated(e)), 1, ExpertProductMath(e, x, y), scope);
  }

  /** The down projection and the residency of its output. */
  method ExpertOutput(records: seq<Record>, layer: nat, e: nat, residency: int, weight: int, work: int, ghost z: Math, ghost scope: Scope)
      returns (extended: seq<Record>, id: int)
    requires QuietBlock(records, scope) && layer < scope.layers && !scope.tiles
    requires Holds(records, residency, Tensor(layer, BankLocal(ExpertGated(e))), z)
    requires Holds(records, weight, Tensor(layer, Resident(ExpertWeight(e, Down))), Given(ExpertWeight(e, Down)))
    ensures QuietBlock(extended, scope)
    ensures Extends(records, extended, id, Tensor(layer, Visible(ExpertIntermediate(e, Down))), ExpertProjected(e, Down, z))
    ensures Requests(extended) == Requests(records) + work
    ensures Leaves(records, extended,
                   {(residency, Tensor(layer, BankLocal(ExpertGated(e)))), (weight, Tensor(layer, Resident(ExpertWeight(e, Down))))},
                   {(id, Tensor(layer, Visible(ExpertIntermediate(e, Down))))})
  {
    var down;
    extended, down := Binary(records, MoEExpertFFN, layer, ExpertProjection(e, Down), residency, BankLocal(ExpertGated(e)), weight,
      Resident(ExpertWeight(e, Down)), ExpertIntermediate(e, Down), work, z, Given(ExpertWeight(e, Down)), scope);
    extended, id := Unary(extended, PIMOperandResidency, layer, ExpertOutputResidency(e), down, ExpertIntermediate(e, Down),
      Visible(ExpertIntermediate(e, Down)), 1, ExpertProjected(e, Down, z), scope);
  }

  /** Down: weight residency, the gated product, the projection and the residency of
      its output. */
  method ExpertDown(records: seq<Record>, layer: nat, e: nat, up: int, gate: int, work: int, ghost x: Math, ghost y: Math, ghost scope: Scope)
      returns (extended: seq<Record>, id: int)
    requires QuietBlock(records, scope) && layer < scope.layers && !scope.tiles
    requires Holds(records, up, Tensor(layer, ExpertIntermediate(e, Up)), x)
    requires Holds(records, gate, Tensor(layer, ExpertIntermediate(e, Gate)), y)
    ensures QuietBlock(extended, scope)
    ensures Extends(records, extended, id, Tensor(layer, Visible(ExpertIntermediate(e, Down))),
                    ExpertProjected(e, Down, ExpertProductMath(e, x, y)))
    ensures Requests(extended) == Requests(records) + work
    ensures Leaves(records, extended, {(up, Tensor(layer, ExpertIntermediate(e, Up))), (gate, Tensor(layer, ExpertIntermediate(e, Gate)))},
                   {(id, Tensor(layer, Visible(ExpertIntermediate(e, Down))))})
  {
    var weight, residency;
    extended, weight := DataMove(records, layer, ExpertWeightResidency(e, Down), ExpertWeight(e, Down), Resident(ExpertWeight(e, Down)), scope);
    extended, residency := ExpertProduct(extended, layer, e, up, gate, x, y, scope);
    extended, id := ExpertOutput(extended, layer, e, residency, weight, work, ExpertProductMath(e, x, y), scope);
  }

  /** One expert: up, gate, down. */
  method RunExpert(records: seq<Record>, layer: nat, e: nat, dispatch: int, work: int, ghost x: Math, ghost scope: Scope)
      returns (extended: seq<Record>, id: int)
    requires QuietBlock(records, scope) && layer < scope.layers && !scope.tiles
    requires Holds(records, dispatch, Tensor(layer, Dispatched), x)
    ensures QuietBlock(extended, scope)
    ensures Requests(extended) == Requests(records) + 3 * work
    ensures Extends(records, extended, id, Tensor(layer, Visible(ExpertIntermediate(e, Down))), ExpertMath(e, x))
    ensures Leaves(records, extended, {(dispatch, Tensor(layer, Dispatched))}, {(id, Tensor(layer, Visible(ExpertIntermediate(e, Down))))})
  {
    var up, gate;
    extended, up := ExpertInput(records, layer, e, Up, dispatch, work, x, scope);
    extended, gate := ExpertInput(extended, layer, e, Gate, dispatch, work, x, scope);
    extended, id := ExpertDown(extended, layer, e, up, gate, work, ExpertProjected(e, Up, x), ExpertProjected(e, Gate, x), scope);
  }

  // ---- the block ----

  method RouterOperands(records: seq<Record>, layer: nat, ghost scope: Scope) returns (extended: seq<Record>, setup: int, weight: int)
    requires QuietBlock(records, scope) && layer < scope.layers && !scope.tiles
    ensures QuietBlock(extended, scope) && KeepsValues(records, extended) && Requests(extended) == Requests(records)
    ensures Holds(extended, setup, Tensor(layer, RouterInput), RouterInputMath())
    ensures Holds(extended, weight, Tensor(layer, Resident(RouterWeight)), Given(RouterWeight))
    ensures Leaves(records, extended, {}, {(setup, Tensor(layer, RouterInput)), (weight, Tensor(layer, Resident(RouterWeight)))})
  {
    extended, setup := DataMove(records, layer, RouterInputSetup, Hidden, RouterInput, scope);
    extended, weight := DataMove(extended, layer, RouterWeightResidency, RouterWeight, Resident(RouterWeight), scope);
  }

  /** Router input, weight and projection. */
  method RouterScores(records: seq<Record>, layer: nat, routerWork: int, ghost scope: Scope)
      returns (extended: seq<Record>, router: int)
    requires QuietBlock(records, scope) && layer < scope.layers && !scope.tiles
    ensures QuietBlock(extended, scope)
    ensures Extends(records, extended, router, Tensor(layer, RouterLogits), RouterMath(RouterInputMath()))
    ensures Requests(extended) == Requests(records) + routerWork
    ensures Leaves(records, extended, {}, {(router, Tensor(layer, RouterLogits))})
  {
    var setup, weight;
    extended, setup, weight := RouterOperands(records, layer, scope);
    extended, router := Binary(extended, MoERouter, layer, RouterProjection, setup, RouterInput, weight, Resident(RouterWeight),
      RouterLogits, routerWork, RouterInputMath(), Given(RouterWeight), scope);
  }

  /** The residency of the logits, and top-k selection. */
  method Select(records: seq<Record>, layer: nat, router: int, ghost scope: Scope)
      returns (extended: seq<Record>, topk: int)
    requires QuietBlock(records, scope) && layer < scope.layers && !scope.tiles
    requires Holds(records, router, Tensor(layer, RouterLogits), RouterMath(RouterInputMath()))
    ensures QuietBlock(extended, scope)
    ensures Extends(records, extended, topk, Tensor(layer, TopkExperts), Computed(TopkSelect, [RouterMath(RouterInputMath())]))
    ensures Requests(extended) == Requests(records)
    ensures Leaves(records, extended, {(router, Tensor(layer, RouterLogits))}, {(topk, Tensor(layer, TopkExperts))})
  {
    var logits;
    extended, logits := Unary(records, PIMOperandResidency, layer, RouterLogitsResidency, router, RouterLogits, Visible(RouterLogits), 1,
      RouterMath(RouterInputMath()), scope);
    extended, topk := Unary(extended, MoETopK, layer, TopkSelect, logits, Visible(RouterLogits), TopkExperts, 1, RouterMath(RouterInputMath()), scope);
  }

  /** The router and top-k selection. */
  method Route(records: seq<Record>, layer: nat, routerWork: int, ghost scope: Scope)
      returns (extended: seq<Record>, topk: int)
    requires QuietBlock(records, scope) && layer < scope.layers && !scope.tiles
    ensures QuietBlock(extended, scope)
    ensures Extends(records, extended, topk, Tensor(layer, TopkExperts), Computed(TopkSelect, [RouterMath(RouterInputMath())]))
    ensures Requests(extended) == Requests(records) + routerWork
    ensures Leaves(records, extended, {}, {(topk, Tensor(layer, TopkExperts))})
  {
    var router;
    extended, router := RouterScores(records, layer, routerWork, scope);
    extended, topk := Select(extended, layer, router, scope);
  }

  /** Dispatch accounting reads the hidden activations and the selection. */
  method AccountTokens(records: seq<Record>, layer: nat, topk: int, ghost scope: Scope)
      returns (extended: seq<Record>, accounted: int)
    requires QuietBlock(records, scope) && layer < scope.layers && !scope.tiles
    requires Holds(records, topk, Tensor(layer, TopkExperts), Computed(TopkSelect, [RouterMath(RouterInputMath())]))
    ensures QuietBlock(extended, scope)
    ensures Extends(records, extended, accounted, Tensor(layer, DispatchAccounted), DispatchedMath(RouterInputMath()))
    ensures Requests(extended) == Requests(records)
    ensures Leaves(records, extended, {(topk, Tensor(layer, TopkExperts))}, {(accounted, Tensor(layer, DispatchAccounted))})
  {
    TwoProducts(layer, topk, Hidden, topk, TopkExperts);
    extended, accounted := Step(records, MoEDispatch, layer, ExpertDispatch, [topk],
      [Hidden, TopkExperts], DispatchAccounted, 1, [topk, topk], [Given(Hidden), Computed(TopkSelect, [RouterMath(RouterInputMath())])], scope);
  }

  /** Dispatch accounting and the materialized dispatch. */
  method DispatchTokens(records: seq<Record>, layer: nat, topk: int, ghost scope: Scope)
      returns (extended: seq<Record>, dispatch: int)
    requires QuietBlock(records, scope) && layer < scope.layers && !scope.tiles
    requires Holds(records, topk, Tensor(layer, TopkExperts), Computed(TopkSelect, [RouterMath(RouterInputMath())]))
    ensures QuietBlock(extended, scope)
    ensures Extends(records, extended, dispatch, Tensor(layer, Dispatched), DispatchedMath(RouterInputMath()))
    ensures Requests(extended) == Requests(records)
    ensures Leaves(records, extended, {(topk, Tensor(layer, TopkExperts))}, {(dispatch, Tensor(layer, Dispatched))})
  {
    var accounted;
    extended, accounted := AccountTokens(records, layer, topk, scope);
    extended, dispatch := Unary(extended, PIMDataMove, layer, TokenDispatch, accounted, DispatchAccounted, Dispatched, 1,
      DispatchedMath(RouterInputMath()), scope);
  }

  /** The selected experts in schedule order, each supplying one output. */
  method RunExperts(records: seq<Record>, layer: nat, m: MoeManifest, dispatch: int, ghost x: Math, ghost scope: Scope)
      returns (extended: seq<Record>, order: seq<int>, ids: seq<int>, outputs: seq<Name>)
    requires QuietBlock(records, scope) && layer < scope.layers && !scope.tiles && ValidMoe(m)
    requires Holds(records, dispatch, Tensor(layer, Dispatched), x)
    ensures order == ExpertOrder(m.selected, m.overlapExperts) && |order| == |m.selected|
    ensures |ids| == |order| && ExpertsRun(records, extended, layer, order, dispatch, ids, outputs, ExpertRequests(m), x, scope)
  {
    order := ExpertOrder(m.selected, m.overlapExperts);
    OrderIsValid(m);
    OverlapPermutesExperts(m.selected, m.overlapExperts);
    extended, ids, outputs := RunInOrder(records, layer, order, dispatch, ExpertRequests(m), x, scope);
  }

  /** The first experts in schedule order have run. */
  ghost predicate ExpertsRun(records: seq<Record>, extended: seq<Record>, layer: nat, order: seq<int>, dispatch: int, ids: seq<int>,
                             outputs: seq<Name>, work: int, x: Math, scope: Scope) {
    && QuietBlock(extended, scope) && KeepsValues(records, extended)
    && Requests(extended) == Requests(records) + Times(|ids|, 3 * work)
    && SuppliesOutputs(extended, layer, order, ids, outputs, x)
    && Leaves(records, extended, if ids == [] then {} else {(dispatch, Tensor(layer, Dispatched))}, Products(layer, ids, outputs))
  }

  method RunInOrder(records: seq<Record>, layer: nat, order: seq<int>, dispatch: int, work: int, ghost x: Math, ghost scope: Scope)
      returns (extended: seq<Record>, ids: seq<int>, outputs: seq<Name>)
    requires QuietBlock(records, scope) && layer < scope.layers && !scope.tiles && forall e <- order :: e >= 0
    requires Holds(records, dispatch, Tensor(layer, Dispatched), x)
    ensures |ids| == |order| && ExpertsRun(records, extended, layer, order, dispatch, ids, outputs, work, x, scope)
  {
    extended, ids, outputs := records, [], [];
    for i := 0 to |order|
      invariant |ids| == i && ExpertsRun(records, extended, layer, order, dispatch, ids, outputs, work, x, scope)
    {
      assert order[i] in order;
      ghost var before := extended;
      var id;
      extended, id := RunExpert(extended, layer, order[i], dispatch, work, x, scope);
      OneMoreExpert(records, before, extended, layer, order, dispatch, ids, outputs, id, work, x, scope);
      ids, outputs := ids + [id], outputs + [Visible(ExpertIntermediate(order[i], Down))];
    }
  }

  /** The outputs of the first experts in schedule order. */
  ghost predicate SuppliesOutputs(rs: seq<Record>, layer: nat, order: seq<int>, ids: seq<int>, outputs: seq<Name>, x: Math) {
    |ids| == |outputs| <= |order| && forall j :: 0 <= j < |ids| ==> OutputOf(rs, layer, order[j], ids[j], outputs[j], x)
  }

  lemma {:induction false} OneMoreExpert(records: seq<Record>, before: seq<Record>, after: seq<Record>, layer: nat, order: seq<int>, dispatch: int, ids: seq<int>,
                      outputs: seq<Name>, id: int, work: int, x: Math, scope: Scope)
    requires ExpertsRun(records, before, layer, order, dispatch, ids, outputs, work, x, scope)
    requires QuietBlock(after, scope) && |ids| < |order| && order[|ids|] >= 0 && Requests(after) == Requests(before) + 3 * work
    requires Extends(before, after, id, Tensor(layer, Visible(ExpertIntermediate(order[|ids|], Down))), ExpertMath(order[|ids|], x))
    requires Leaves(before, after, {(dispatch, Tensor(layer, Dispatched))}, {(id, Tensor(layer, Visible(ExpertIntermediate(order[|ids|], Down))))})
    ensures ExpertsRun(records, after, layer, order, dispatch, ids + [id], outputs + [Visible(ExpertIntermediate(order[|ids|], Down))],
                       work, x, scope)
  {
    OneMoreOutput(before, after, layer, order, ids, outputs, id, x);
    MoreProducts(layer, ids, outputs, id, Visible(ExpertIntermediate(order[|ids|], Down)));
  }

  lemma {:induction false} OneMoreOutput(before: seq<Record>, after: seq<Record>, layer: nat, order: seq<int>, ids: seq<int>, outputs: seq<Name>, id: int, x: Math)
    requires SuppliesOutputs(before, layer, order, ids, outputs, x) && KeepsValues(before, after) && |ids| < |order| && order[|ids|] >= 0
    requires Holds(after, id, Tensor(layer, Visible(ExpertIntermediate(order[|ids|], Down))), ExpertMath(order[|ids|], x))
    ensures SuppliesOutputs(after, layer, order, ids + [id], outputs + [Visible(ExpertIntermediate(order[|ids|], Down))], x)
  {
    forall j | 0 <= j < |ids| ensures OutputOf(after, layer, order[j], ids[j], outputs[j], x) {
      assert OutputOf(before, layer, order[j], ids[j], outputs[j], x);
    }
  }

  ghost predicate OutputOf(rs: seq<Record>, layer: nat, e: int, id: int, output: Name, x: Math) {
    e >= 0 && output == Visible(ExpertIntermediate(e, Down)) && Holds(rs, id, Tensor(layer, output), ExpertMath(e, x))
  }

  function ExpertRequests(m: MoeManifest): int {
    NumRequests(m.seqLen * m.hiddenSize * m.expertHiddenSize, m.datatyp)
  }

  function RouterRequests(m: MoeManifest): int {
    NumRequests(m.seqLen * m.experts * m.hiddenSize, m.datatyp)
  }

  /** One router, and up, gate and down for every selected expert. */
  function MoeLayerRequests(m: MoeManifest): int {
    RouterRequests(m) + |m.selected| * (3 * ExpertRequests(m))
  }

  lemma {:induction false} OrderIsValid(m: MoeManifest)
    requires ValidMoe(m)
    ensures forall e <- ExpertOrder(m.selected, m.overlapExperts) :: 0 <= e < m.experts
  {
    OverlapPermutesExperts(m.selected, m.overlapExperts);
    forall e | e in ExpertOrder(m.selected, m.overlapExperts)
      ensures e in m.selected
    {
      assert e in multiset(m.selected);
    }
  }

  lemma {:induction false} OutputsFit(rs: seq<Record>, layer: nat, order: seq<int>, ids: seq<int>, outputs: seq<Name>, x: Math)
    requires |ids| == |order| && SuppliesOutputs(rs, layer, order, ids, outputs, x)
    ensures forall j :: 0 <= j < |ids| ==> Fits(rs, layer, outputs[j], ids[j], ExpertArgs(order, x)[j])
  {
    forall j: nat | j < |ids|
      ensures Fits(rs, layer, outputs[j], ids[j], ExpertArgs(order, x)[j])
    {
      assert OutputOf(rs, layer, order[j], ids[j], outputs[j], x);
    }
  }

  method Combine(records: seq<Record>, layer: nat, order: seq<int>, ids: seq<int>, outputs: seq<Name>, ghost x: Math, ghost scope: Scope)
      returns (extended: seq<Record>, combine: int)
    requires QuietBlock(records, scope) && layer < scope.layers && !scope.tiles && |ids| == |order|
    requires SuppliesOutputs(records, layer, order, ids, outputs, x)
    ensures QuietBlock(extended, scope)
    ensures Extends(records, extended, combine, Tensor(layer, CombinedExperts), Computed(ExpertCombine, ExpertArgs(order, x)))
    ensures Requests(extended) == Requests(records)
    ensures Leaves(records, extended, Products(layer, ids, outputs), {(combine, Tensor(layer, CombinedExperts))})
  {
    ghost var args := ExpertArgs(order, x);
    OutputsFit(records, layer, order, ids, outputs, x);
    extended, combine := Step(records, MoECombine, layer, ExpertCombine, ids, outputs, CombinedExperts, 1, ids, args, scope);
  }

  /** Combine and its materialized result. */
  method CombineExperts(records: seq<Record>, layer: nat, order: seq<int>, ids: seq<int>, outputs: seq<Name>, ghost x: Math, ghost scope: Scope)
      returns (extended: seq<Record>, materialized: int)
    requires QuietBlock(records, scope) && layer < scope.layers && !scope.tiles && |ids| == |order|
    requires SuppliesOutputs(records, layer, order, ids, outputs, x)
    ensures QuietBlock(extended, scope)
    ensures Extends(records, extended, materialized, Tensor(layer, Materialized(CombinedExperts)), Computed(ExpertCombine, ExpertArgs(order, x)))
    ensures Requests(extended) == Requests(records)
    ensures Leaves(records, extended, Products(layer, ids, outputs), {(materialized, Tensor(layer, Materialized(CombinedExperts)))})
  {
    var combine;
    extended, combine := Combine(records, layer, order, ids, outputs, x, scope);
    extended, materialized := Unary(extended, PIMDataMove, layer, ExpertCombineMove, combine, CombinedExperts, Materialized(CombinedExperts),
      1, Computed(ExpertCombine, ExpertArgs(order, x)), scope);
  }

  /** One layer: router, dispatch, the selected experts, combine.  It leaves over its
      output alone. */
  method MoeLayer(records: seq<Record>, layer: nat, m: MoeManifest, ghost scope: Scope) returns (extended: seq<Record>, last: int)
    requires QuietBlock(records, scope) && layer < scope.layers && !scope.tiles && ValidMoe(m)
    ensures QuietBlock(extended, scope) && KeepsValues(records, extended)
    ensures Requests(extended) == Requests(records) + MoeLayerRequests(m)
    ensures Holds(extended, last, Tensor(layer, Materialized(CombinedExperts)), MoeMath(ExpertOrder(m.selected, m.overlapExperts), RouterInputMath()))
    ensures Leaves(records, extended, {}, {(last, Tensor(layer, Materialized(CombinedExperts)))})
  {
    OrderIsValid(m);
    var topk, dispatch, order, ids, outputs;
    extended, topk := Route(records, layer, RouterRequests(m), scope);
    extended, dispatch := DispatchTokens(extended, layer, topk, scope);
    extended, order, ids, outputs := RunExperts(extended, layer, m, dispatch, DispatchedMath(RouterInputMath()), scope);
    TimesIsProduct(|m.selected|, 3 * ExpertRequests(m));
    extended, last := CombineExperts(extended, layer, order, ids, outputs, DispatchedMath(RouterInputMath()), scope);
  }

  /** Nothing is left over but the layers' outputs, and each combines the selected experts. */
  ghost predicate MoeComputes(rs: seq<Record>, ends: seq<int>, m: MoeManifest) {
    && (forall p :: Spare(rs, p) ==> p in Ends(ends, Materialized(CombinedExperts)))
    && (forall l: nat :: l < |ends| ==>
          Holds(rs, ends[l], Tensor(l, Materialized(CombinedExperts)), MoeMath(ExpertOrder(m.selected, m.overlapExperts), RouterInputMath())))
  }

  lemma {:induction false} NextMoe(before: seq<Record>, after: seq<Record>, ends: seq<int>, last: int, m: MoeManifest)
    requires MoeComputes(before, ends, m) && KeepsValues(before, after)
    requires Leaves(before, after, {}, {(last, Tensor(|ends|, Materialized(CombinedExperts)))})
    requires Holds(after, last, Tensor(|ends|, Materialized(CombinedExperts)), MoeMath(ExpertOrder(m.selected, m.overlapExperts), RouterInputMath()))
    ensures MoeComputes(after, ends + [last], m)
  {
    var more, math := ends + [last], MoeMath(ExpertOrder(m.selected, m.overlapExperts), RouterInputMath());
    MoreEnds(ends, last, Materialized(CombinedExperts));
    forall l: nat | l < |more|
      ensures Holds(after, more[l], Tensor(l, Materialized(CombinedExperts)), math)
    {
      assert l < |ends| ==> Holds(before, ends[l], Tensor(l, Materialized(CombinedExperts)), math);
    }
  }

  /** The layers so far. */
  ghost predicate MoeBuilt(rs: seq<Record>, ends: seq<int>, m: MoeManifest, scope: Scope) {
    QuietBlock(rs, scope) && Requests(rs) == Times(|ends|, MoeLayerRequests(m)) && MoeComputes(rs, ends, m)
  }

  method NextMoeLayer(records: seq<Record>, layer: nat, m: MoeManifest, ghost ends: seq<int>, ghost scope: Scope)
      returns (extended: seq<Record>, ghost more: seq<int>)
    requires MoeBuilt(records, ends, m, scope) && |ends| == layer < scope.layers && !scope.tiles && ValidMoe(m)
    ensures MoeBuilt(extended, more, m, scope) && |more| == layer + 1
  {
    var last;
    extended, last := MoeLayer(records, layer, m, scope);
    NextMoe(records, extended, ends, last, m);
    more := ends + [last];
  }

  /** The output of a layer waits for all of the layer's records. */
  lemma {:induction false} OutputWaitsForExperts(rs: seq<Record>, ends: seq<int>, m: MoeManifest, i: nat)
    requires QuietBlock(rs, Scope(m.layers, false)) && MoeComputes(rs, ends, m) && i < |rs|
    ensures rs[i].layer < |ends| && Reaches(rs, ends[rs[i].layer], rs[i].id)
  {
    EndReaches(rs, Scope(m.layers, false), ends, Materialized(CombinedExperts), i);
  }

  /** `generate_moe_records`.  Every output but the layers' own is read by a later record
      that depends on its maker, and each layer's output is the combination of its
      selected experts. */
  method GenerateMoe(m: MoeManifest) returns (r: Result<seq<Record>>, ghost ends: seq<int>)
    ensures r.Ok? <==> ValidMoe(m)
    ensures r.Ok? ==>
      && QuietBlock(r.value, Scope(m.layers, false)) && Requests(r.value) == m.layers * MoeLayerRequests(m)
      && MoeComputes(r.value, ends, m) && |ends| == m.layers
  {
    ends := [];
    if !ValidMoe(m) {
      return Err(BadArgument), ends;
    }
    var records: seq<Record> := [];
    EmptyBlock();
    for layer := 0 to m.layers
      invariant MoeBuilt(records, ends, m, Scope(m.layers, false)) && |ends| == layer
    {
      records, ends := NextMoeLayer(records, layer, m, ends, Scope(m.layers, false));
    }
    TimesIsProduct(m.layers, MoeLayerRequests(m));
    r := Ok(records);
  }
}
