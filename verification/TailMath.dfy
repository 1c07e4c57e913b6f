/** What the block after attention computes in its layer, from the output projection. */
module TailMath {
  import opened AttentionMath
  import opened Blocks
  import opened CausalTiling
  import opened DataFlow
  import opened DecodeAttention
  import opened Ffn
  import opened Linkage
  import opened Manifests
  import opened Moe
  import opened OutputParts
  import opened Records
  import opened Relinking
  import opened Results

  // ---- the block after attention ----

  /** The block after attention. */
  datatype LayerTail = DenseTail(ffn: FfnManifest) | ExpertTail(moe: MoeManifest) {
    predicate Valid() {
      match this
      case DenseTail(f) => ValidFfn(f) && f.layers == 1
      case ExpertTail(m) => ValidMoe(m) && m.layers == 1
    }

    function Requests(): int {
      if DenseTail? then ProjectionCount(ffn.variant) * ProjectionRequests(ffn) else MoeLayerRequests(moe)
    }

    function InputOp(): Op {
      if DenseTail? then HiddenTileSetup else RouterInputSetup
    }

    function Output(): Name {
      if DenseTail? then HiddenOut else Materialized(CombinedExperts)
    }

    function Tiles(): nat {
      if DenseTail? && ffn.activationTile > 0 then |PredictedRanges(ffn.hiddenSize, ffn.activationTile)| else 0
    }

    /** What the block makes of `x`, which every hidden tile or the router takes in. */
    function Of(x: Math): Math {
      match this
      case DenseTail(f) => FfnMath(f.variant, Joined(seq(Tiles(), _ => Computed(HiddenTileSetup, [x]))))
      case ExpertTail(m) => MoeMath(ExpertOrder(m.selected, m.overlapExperts), Computed(RouterInputSetup, [x]))
    }

    /** What the block computes on its own. */
    function Alone(): Math {
      match this
      case DenseTail(f) => FfnMath(f.variant, HiddenMath(Tiles()))
      case ExpertTail(m) => MoeMath(ExpertOrder(m.selected, m.overlapExperts), RouterInputMath())
    }
  }

  function TailWiring(x: Math): Wiring {
    Wiring(None, None, None, Some(x))
  }

  lemma {:induction false} FfnLinked(variant: Variant, n: nat, x: Math)
    ensures Linked(FfnMath(variant, HiddenMath(n)), TailWiring(x)) == FfnMath(variant, Joined(seq(n, _ => Computed(HiddenTileSetup, [x]))))
  {
    var w, hidden := TailWiring(x), Joined(seq(n, _ => Computed(HiddenTileSetup, [x])));
    assert Linked(HiddenMath(n), w) == hidden;
    forall p ensures Linked(ProjectionMath(p, HiddenMath(n)), w) == ProjectionMath(p, hidden) {
      PairLinked(FfnProjectionOp(p), HiddenMath(n), Given(FfnWeight(p)), w);
    }
    var y := IntermediateMath(variant, HiddenMath(n));
    if variant.Relu2? {
      OneLinked(FfnActivation, ProjectionMath(Up, HiddenMath(n)), w);
    } else {
      OneLinked(FfnActivation, ProjectionMath(Gate, HiddenMath(n)), w);
      PairLinked(FfnGatedMultiply, Computed(FfnActivation, [ProjectionMath(Gate, HiddenMath(n))]), ProjectionMath(Up, HiddenMath(n)), w);
    }
    PairLinked(FfnProjectionOp(Down), y, Given(FfnWeight(Down)), w);
  }

  lemma {:induction false} OneLinked(op: Op, a: Math, w: Wiring)
    requires w.For(op).None?
    ensures Linked(Computed(op, [a]), w) == Computed(op, [Linked(a, w)])
  {
    assert LinkedAll([a], w) == [Linked(a, w)];
  }

  lemma {:induction false} ExpertLinked(e: nat, y: Math, w: Wiring)
    requires forall op :: !Enters(op) ==> w.For(op).None?
    ensures Linked(ExpertMath(e, y), w) == ExpertMath(e, Linked(y, w))
  {
    forall p ensures Linked(ExpertProjected(e, p, y), w) == ExpertProjected(e, p, Linked(y, w)) {
      PairLinked(ExpertProjection(e, p), y, Given(ExpertWeight(e, p)), w);
    }
    var up, gate := ExpertProjected(e, Up, y), ExpertProjected(e, Gate, y);
    OneLinked(ExpertActivation(e), gate, w);
    PairLinked(ExpertGatedMultiply(e), Computed(ExpertActivation(e), [gate]), up, w);
    PairLinked(ExpertProjection(e, Down), ExpertProductMath(e, up, gate), Given(ExpertWeight(e, Down)), w);
  }

  lemma {:induction false} DispatchLinked(x: Math)
    ensures Linked(DispatchedMath(RouterInputMath()), TailWiring(x)) == DispatchedMath(Computed(RouterInputSetup, [x]))
  {
    var w := TailWiring(x);
    PairLinked(RouterProjection, RouterInputMath(), Given(RouterWeight), w);
    OneLinked(TopkSelect, RouterMath(RouterInputMath()), w);
    PairLinked(ExpertDispatch, Given(Hidden), Computed(TopkSelect, [RouterMath(RouterInputMath())]), w);
  }

  lemma {:induction false} MoeLinked(order: seq<int>, x: Math)
    requires forall e <- order :: e >= 0
    ensures Linked(MoeMath(order, RouterInputMath()), TailWiring(x)) == MoeMath(order, Computed(RouterInputSetup, [x]))
  {
    var w, y := TailWiring(x), DispatchedMath(RouterInputMath());
    var z := DispatchedMath(Computed(RouterInputSetup, [x]));
    DispatchLinked(x);
    forall j | 0 <= j < |order| ensures LinkedAll(ExpertArgs(order, y), w)[j] == ExpertArgs(order, z)[j] {
      assert order[j] in order;
      ExpertLinked(order[j], y, w);
    }
    assert LinkedAll(ExpertArgs(order, y), w) == ExpertArgs(order, z);
  }

  lemma {:induction false} TailLinked(t: LayerTail, x: Math)
    requires t.Valid()
    ensures Linked(t.Alone(), TailWiring(x)) == t.Of(x)
  {
    match t {
      case DenseTail(f) => FfnLinked(f.variant, t.Tiles(), x);
      case ExpertTail(m) =>
        OrderIsValid(m);
        MoeLinked(ExpertOrder(m.selected, m.overlapExperts), x);
    }
  }

  /** The block computes, at its end, what it says it computes. */
  ghost predicate TailComputes(block: seq<Record>, end: int, t: LayerTail) {
    t.Valid() && QuietBlock(block, Scope(1, t.DenseTail?)) && Means(block, end, Tensor(0, t.Output()), t.Alone())
  }

  lemma {:induction false} TailEntered(block: seq<Record>, end: int, t: LayerTail)
    requires TailComputes(block, end, t)
    ensures ReachesOp(block, end, t.InputOp())
  {
    TailMentions(t);
    MentionReached(block, end, Tensor(0, t.Output()), t.Alone(), t.InputOp());
  }

  lemma {:induction false} TailMentions(t: LayerTail)
    requires t.Valid()
    ensures Mentions(t.Alone(), t.InputOp())
  {
    match t {
      case DenseTail(f) => DenseMentions(f, t.Tiles());
      case ExpertTail(m) => ExpertsMention(m);
    }
  }

  lemma {:induction false} FirstMentions(op: Op, a: Math, rest: seq<Math>, entry: Op)
    requires Mentions(a, entry)
    ensures Mentions(Computed(op, [a] + rest), entry)
  {
    assert ([a] + rest)[0] == a;
  }

  lemma {:induction false} SecondMentions(op: Op, a: Math, b: Math, entry: Op)
    requires Mentions(b, entry)
    ensures Mentions(Computed(op, [a, b]), entry)
  {
    assert [a, b][1] == b;
  }

  lemma {:induction false} ProjectionMentions(p: Projection, x: Math, entry: Op)
    requires Mentions(x, entry)
    ensures Mentions(ProjectionMath(p, x), entry)
  {
    FirstMentions(FfnProjectionOp(p), x, [Given(FfnWeight(p))], entry);
    assert [x] + [Given(FfnWeight(p))] == [x, Given(FfnWeight(p))];
  }

  lemma {:induction false} DenseMentions(f: FfnManifest, n: nat)
    requires ValidFfn(f) && n == |PredictedRanges(f.hiddenSize, f.activationTile)|
    ensures Mentions(FfnMath(f.variant, HiddenMath(n)), HiddenTileSetup)
  {
    SomeTile(f.hiddenSize, f.activationTile);
    assert HiddenMath(n).parts[0] == HiddenTileMath(0) && Mentions(HiddenTileMath(0), HiddenTileSetup);
    IntermediateMentions(f.variant, HiddenMath(n), HiddenTileSetup);
    ProjectionMentions(Down, IntermediateMath(f.variant, HiddenMath(n)), HiddenTileSetup);
  }

  lemma {:induction false} IntermediateMentions(variant: Variant, x: Math, entry: Op)
    requires Mentions(x, entry)
    ensures Mentions(IntermediateMath(variant, x), entry)
  {
    var p := if variant.Relu2? then Up else Gate;
    ProjectionMentions(p, x, entry);
    FirstMentions(FfnActivation, ProjectionMath(p, x), [], entry);
    assert [ProjectionMath(p, x)] + [] == [ProjectionMath(p, x)];
    if !variant.Relu2? {
      var gate := Computed(FfnActivation, [ProjectionMath(Gate, x)]);
      FirstMentions(FfnGatedMultiply, gate, [ProjectionMath(Up, x)], entry);
      assert [gate] + [ProjectionMath(Up, x)] == [gate, ProjectionMath(Up, x)];
    }
  }

  lemma {:induction false} DispatchMentions()
    ensures Mentions(DispatchedMath(RouterInputMath()), RouterInputSetup)
  {
    var router := RouterMath(RouterInputMath());
    FirstMentions(RouterProjection, RouterInputMath(), [Given(RouterWeight)], RouterInputSetup);
    assert [RouterInputMath()] + [Given(RouterWeight)] == [RouterInputMath(), Given(RouterWeight)];
    FirstMentions(TopkSelect, router, [], RouterInputSetup);
    assert [router] + [] == [router];
    SecondMentions(ExpertDispatch, Given(Hidden), Computed(TopkSelect, [router]), RouterInputSetup);
  }

  lemma {:induction false} ExpertMentions(e: nat, y: Math)
    requires Mentions(y, RouterInputSetup)
    ensures Mentions(ExpertMath(e, y), RouterInputSetup)
  {
    var up, gate := ExpertProjected(e, Up, y), ExpertProjected(e, Gate, y);
    assert [y, Given(ExpertWeight(e, Up))][0] == y;
    var activated := Computed(ExpertActivation(e), [gate]);
    assert [activated, up][1] == up;
    var product := ExpertProductMath(e, up, gate);
    assert [product, Given(ExpertWeight(e, Down))][0] == product;
  }

  lemma {:induction false} ExpertsMention(m: MoeManifest)
    requires ValidMoe(m)
    ensures Mentions(MoeMath(ExpertOrder(m.selected, m.overlapExperts), RouterInputMath()), RouterInputSetup)
  {
    var order := ExpertOrder(m.selected, m.overlapExperts);
    OrderIsValid(m);
    OverlapPermutesExperts(m.selected, m.overlapExperts);
    assert order[0] in order;
    DispatchMentions();
    ExpertMentions(order[0], DispatchedMath(RouterInputMath()));
    var args := ExpertArgs(order, DispatchedMath(RouterInputMath()));
    assert args[0] == ExpertMath(order[0], DispatchedMath(RouterInputMath()));
  }

  /** `part` is the block in its place, linked to the output projection `o`. */
  ghost predicate TailPlaced(block: seq<Record>, part: seq<Record>, next: int, layer: nat, o: int, t: LayerTail) {
    |part| == |block| && forall i :: 0 <= i < |part| ==> part[i] == LinkInput(Placed(block, next, layer)[i], t.InputOp(), layer, o)
  }

  lemma {:induction false} TailRecordInPlace(all: seq<Record>, r: Record, j: nat, next: int, layer: nat, o: int, t: LayerTail, x: Math)
    requires QuietShape(r) && InScope(r, Scope(1, t.DenseTail?)) && r.id >= 0
    requires j < |all| && all[j] == LinkInput(Retarget(Shift(r, next), layer), t.InputOp(), layer, o)
    requires Means(all, o, Tensor(layer, AttentionOutput), x) && 0 <= o < next
    ensures InPlace(all, r, next, layer, TailWiring(x))
  {
    var p, w := all[j], TailWiring(x);
    forall d | d in r.deps ensures d + next in p.deps {
      ShiftAllHas(r.deps, next, d);
    }
    assert o in [o];
    assert Wired(all, r, p, next, layer, w);
  }

  lemma {:induction false} TailInPlace(rs: seq<Record>, block: seq<Record>, part: seq<Record>, next: int, layer: nat, o: int, t: LayerTail, x: Math)
    requires QuietBlock(block, Scope(1, t.DenseTail?)) && TailPlaced(block, part, next, layer, o, t)
    requires Means(rs, o, Tensor(layer, AttentionOutput), x) && 0 <= o < next
    ensures forall i: nat :: i < |block| ==> InPlace(rs + part, block[i], next, layer, TailWiring(x))
  {
    MeansMore(rs, rs + part, o, Tensor(layer, AttentionOutput), x);
    forall i: nat | i < |block|
      ensures InPlace(rs + part, block[i], next, layer, TailWiring(x))
    {
      QuietAt(block, Scope(1, t.DenseTail?), i);
      assert (rs + part)[|rs| + i] == part[i];
      TailRecordInPlace(rs + part, block[i], |rs| + i, next, layer, o, t, x);
    }
  }

  lemma {:induction false} TailDepends(rs: seq<Record>, block: seq<Record>, part: seq<Record>, next: int, layer: nat, o: int, t: LayerTail)
    requires QuietBlock(block, Scope(1, t.DenseTail?)) && TailPlaced(block, part, next, layer, o, t)
    ensures DependsShifted(block, rs + part, next)
  {
    forall a, b | DependsOn(block, a, b) ensures DependsOn(rs + part, a + next, b + next) {
      var i: nat :| i < |block| && block[i].id == a && b in block[i].deps;
      QuietAt(block, Scope(1, t.DenseTail?), i);
      ShiftAllHas(block[i].deps, next, b);
      assert (rs + part)[|rs| + i] == part[i];
    }
  }

  lemma {:induction false} EntryDepends(rs: seq<Record>, block: seq<Record>, part: seq<Record>, next: int, layer: nat, o: int, t: LayerTail, i: nat)
    requires TailPlaced(block, part, next, layer, o, t) && i < |block| && block[i].op == t.InputOp()
    ensures DependsOn(rs + part, block[i].id + next, o)
  {
    assert (rs + part)[|rs| + i] == part[i] && o in [o];
  }

  /** The block after attention, in its place, waits for the output projection. */
  lemma {:induction false} TailWaits(rs: seq<Record>, block: seq<Record>, part: seq<Record>, next: int, layer: nat, o: int, t: LayerTail, end: int)
    requires TailComputes(block, end, t) && TailPlaced(block, part, next, layer, o, t)
    ensures Reaches(rs + part, end + next, o)
  {
    TailEntered(block, end, t);
    var i: nat :| i < |block| && block[i].op == t.InputOp() && Reaches(block, end, block[i].id);
    TailDepends(rs, block, part, next, layer, o, t);
    ReachesShifted(block, rs + part, end, block[i].id, next);
    EntryDepends(rs, block, part, next, layer, o, t, i);
    ReachesBeyond(rs + part, end + next, block[i].id + next, o);
  }

  /** And it computes from what the projection computes. */
  lemma {:induction false} TailMeans(rs: seq<Record>, block: seq<Record>, part: seq<Record>, next: int, layer: nat, o: int, t: LayerTail, x: Math,
                                     end: int)
    requires TailComputes(block, end, t) && TailPlaced(block, part, next, layer, o, t)
    requires Means(rs, o, Tensor(layer, AttentionOutput), x) && 0 <= o < next
    ensures Means(rs + part, end + next, Tensor(layer, t.Output()), t.Of(x))
  {
    TailInPlace(rs, block, part, next, layer, o, t, x);
    Carried(block, rs + part, next, layer, TailWiring(x), end, Tensor(0, t.Output()), t.Alone());
    TailLinked(t, x);
  }
}
