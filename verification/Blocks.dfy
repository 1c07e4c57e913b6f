/** Building blocks shared by the feed-forward and mixture-of-experts generators. */
module Blocks {
  import opened DataFlow
  import opened Manifests
  import opened Records
  import opened Relinking

  /** Operations that the layer assembly looks for outside the block. */
  predicate OfAttention(op: Op) {
    Qkvo(op) || op.ContextReduction? || op.KvCacheTileRead?
  }

  /** Records of a block that opens only hidden activation tiles and takes no part in
      collecting attention results. */
  ghost predicate QuietShape(r: Record) {
    && (r.op.HiddenTileSetup? || forall t :: t in r.inputs ==> !Port(t.name))
    && (r.op.HiddenTileSetup? || r.op.RouterInputSetup? ==> r.kind.PIMDataMove?)
    && (r.op.HiddenTileSetup? || r.op.RouterInputSetup? ==> r.deps == [])
    && !r.kind.AttentionScore? && !r.kind.AttentionContext? && !OfAttention(r.op)
    && OwnLayer(r) && |r.outputs| == 1
  }

  /** The feed-forward block reads hidden tiles and has projections; the block of
      experts has neither. */
  predicate InScope(r: Record, scope: Scope) {
    && r.layer < scope.layers && (if scope.tiles then !r.op.RouterInputSetup? else !r.op.HiddenTileSetup?)
    && ProjectsIn(r.kind, scope)
  }

  predicate ProjectsIn(kind: RecordKind, scope: Scope) {
    if scope.tiles then !OfExperts(kind) else !kind.FFNProjection?
  }

  ghost predicate QuietBlock(rs: seq<Record>, scope: Scope) {
    Block(rs) && AllQuiet(rs, scope)
  }

  ghost predicate AllQuiet(rs: seq<Record>, scope: Scope)
    decreases |rs|
  {
    rs == [] || (AllQuiet(rs[..|rs| - 1], scope) && QuietShape(rs[|rs| - 1]) && InScope(rs[|rs| - 1], scope))
  }

  lemma {:induction false} QuietAt(rs: seq<Record>, scope: Scope, i: nat)
    requires AllQuiet(rs, scope) && i < |rs|
    ensures QuietShape(rs[i]) && InScope(rs[i], scope)
    decreases |rs|
  {
    if i < |rs| - 1 {
      QuietAt(rs[..|rs| - 1], scope, i);
    }
  }

  /** `after` is `before` and one record, which computes `t` as `e`. */
  ghost predicate Extends(before: seq<Record>, after: seq<Record>, id: int, t: Tensor, e: Math) {
    KeepsValues(before, after) && Holds(after, id, t, e)
  }

  /** A quiet record that follows a quiet block extends it. */
  lemma {:induction false} EmitQuiet(records: seq<Record>, r: Record, args: seq<Math>, scope: Scope)
    requires QuietBlock(records, scope) && r.id == |records| && Follows(Env(records), r, true)
    requires QuietShape(r) && InScope(r, scope) && !QueryOperand(r.outputs[0].name)
    requires |args| == |r.inputs| && forall j: nat :: j < |args| ==> Finds(records, r.id, r.deps, r.inputs[j], args[j])
    ensures QuietBlock(records + [r], scope)
    ensures Extends(records, records + [r], r.id, r.outputs[0], Outcome(r.kind, r.op, 0, args))
    ensures Requests(records + [r]) == Requests(records) + MacRequests(r)
  {
    Emit(records, r);
    assert (records + [r])[..|records|] == records;
    assert Supplies(Env(records + [r]), r.id, r.outputs[0]);
    ValuesKept(records, records + [r]);
    SnocMeans(records, r, 0, args);
  }

  /** A data move from outside the trace, or from a tile the layer assembly connects. */
  method DataMove(records: seq<Record>, layer: nat, op: Op, input: Name, output: Name, ghost scope: Scope)
      returns (extended: seq<Record>, id: int)
    requires QuietBlock(records, scope) && layer < scope.layers
    requires !OfAttention(op) && (op.HiddenTileSetup? ==> scope.tiles) && (op.RouterInputSetup? ==> !scope.tiles)
    requires Leaf(input) || (op.HiddenTileSetup? && Port(input))
    requires !Leaf(output) && !QueryOperand(output)
    ensures Extends(records, extended, id, Tensor(layer, output), Outcome(PIMDataMove, op, 0, [Given(input)]))
    ensures QuietBlock(extended, scope) && Requests(extended) == Requests(records)
    ensures Leaves(records, extended, {}, {(id, Tensor(layer, output))})
  {
    id := |records|;
    var r := Record(id, PIMDataMove, layer, op, [Tensor(layer, input)], [Tensor(layer, output)], [], 1);
    EmitQuiet(records, r, [Given(input)], scope);
    SpareSnoc(records, r, {}, {(id, Tensor(layer, output))});
    extended := records + [r];
  }

  /** `d` may be the dependency of a record that reads `n` as `e`. */
  ghost predicate Fits(rs: seq<Record>, layer: nat, n: Name, d: int, e: Math) {
    (Holds(rs, d, Tensor(layer, n), e) && !Port(n)) || (Leaf(n) && e == Given(n) && exists t, x :: Holds(rs, d, t, x))
  }

  lemma {:induction false} FitsAvailable(records: seq<Record>, layer: nat, n: Name, d: int, deps: seq<int>, e: Math)
    requires Block(records) && Fits(records, layer, n, d, e) && d in deps
    ensures Finds(records, |records|, deps, Tensor(layer, n), e)
  {
    if Holds(records, d, Tensor(layer, n), e) {
      assert records[d].id == d;
    }
  }

  /** A record each of whose inputs is an output of one of its dependencies, or comes
      from outside the trace. `from` names the dependency that supplies each input, and
      `args` what it holds. */
  method Step(records: seq<Record>, kind: RecordKind, layer: nat, op: Op, deps: seq<int>, inputs: seq<Name>,
              output: Name, requests: int, ghost from: seq<int>, ghost args: seq<Math>, ghost scope: Scope)
      returns (extended: seq<Record>, id: int)
    requires QuietBlock(records, scope) && layer < scope.layers
    requires !kind.AttentionScore? && !kind.AttentionContext? && ProjectsIn(kind, scope)
    requires !op.HiddenTileSetup? && !op.RouterInputSetup? && !OfAttention(op)
    requires |from| == |inputs| == |args| && forall d :: d in deps <==> d in from
    requires forall j :: 0 <= j < |inputs| ==> Fits(records, layer, inputs[j], from[j], args[j])
    requires !Leaf(output) && !QueryOperand(output)
    ensures Extends(records, extended, id, Tensor(layer, output), Outcome(kind, op, 0, args))
    ensures QuietBlock(extended, scope)
    ensures Requests(extended) == Requests(records) + if IsProjection(kind) then requests else 0
    ensures Leaves(records, extended, Products(layer, from, inputs), {(id, Tensor(layer, output))})
  {
    id := |records|;
    var tensors := seq(|inputs|, j requires 0 <= j < |inputs| => Tensor(layer, inputs[j]));
    var r := Record(id, kind, layer, op, tensors, [Tensor(layer, output)], deps, requests);
    forall j: nat | j < |args|
      ensures Finds(records, id, deps, tensors[j], args[j])
    {
      FitsAvailable(records, layer, inputs[j], from[j], deps, args[j]);
    }
    StepFollows(records, r, layer, inputs, from, args);
    EmitQuiet(records, r, args, scope);
    StepTakes(r, layer, inputs, from);
    SpareSnoc(records, r, Products(layer, from, inputs), {(id, Tensor(layer, output))});
    extended := records + [r];
  }

  lemma {:induction false} StepFollows(records: seq<Record>, r: Record, layer: nat, inputs: seq<Name>, from: seq<int>, args: seq<Math>)
    requires Block(records) && r.id == |records| && |from| == |inputs| == |args| == |r.inputs|
    requires forall j :: 0 <= j < |inputs| ==> r.inputs[j] == Tensor(layer, inputs[j])
    requires forall d :: d in r.deps <==> d in from
    requires forall j :: 0 <= j < |inputs| ==> Fits(records, layer, inputs[j], from[j], args[j])
    requires forall t :: t in r.outputs ==> !Leaf(t.name)
    ensures Follows(Env(records), r, true)
    ensures forall t :: t in r.inputs ==> !Port(t.name)
  {
  }

  lemma {:induction false} StepTakes(r: Record, layer: nat, inputs: seq<Name>, from: seq<int>)
    requires |from| == |inputs| == |r.inputs|
    requires forall j :: 0 <= j < |inputs| ==> r.inputs[j] == Tensor(layer, inputs[j])
    requires forall d :: d in r.deps <==> d in from
    ensures forall p :: p in Products(layer, from, inputs) ==> Takes(r, p)
  {
    forall p | p in Products(layer, from, inputs)
      ensures Takes(r, p)
    {
      var j :| 0 <= j < |from| && p == (from[j], Tensor(layer, inputs[j]));
      var d := from[j];
      assert d in from && d in r.deps;
      assert r.inputs[j] in r.inputs;
    }
  }

  lemma {:induction false} OneProduct(layer: nat, d: int, n: Name)
    ensures Products(layer, [d], [n]) == {(d, Tensor(layer, n))}
  {
    assert [d][0] == d && [n][0] == n;
  }

  lemma {:induction false} TwoProducts(layer: nat, a: int, x: Name, b: int, y: Name)
    ensures Products(layer, [a, b], [x, y]) == {(a, Tensor(layer, x)), (b, Tensor(layer, y))}
  {
    assert [a, b][0] == a && [x, y][0] == x && [a, b][1] == b && [x, y][1] == y;
  }

  /** A record that reads one output of one record. */
  method Unary(records: seq<Record>, kind: RecordKind, layer: nat, op: Op, d: int, input: Name, output: Name, requests: int,
               ghost e: Math, ghost scope: Scope)
      returns (extended: seq<Record>, id: int)
    requires QuietBlock(records, scope) && layer < scope.layers
    requires !kind.AttentionScore? && !kind.AttentionContext? && ProjectsIn(kind, scope)
    requires !op.HiddenTileSetup? && !op.RouterInputSetup? && !OfAttention(op)
    requires Holds(records, d, Tensor(layer, input), e) && !Port(input)
    requires !Leaf(output) && !QueryOperand(output)
    ensures Extends(records, extended, id, Tensor(layer, output), Outcome(kind, op, 0, [e]))
    ensures QuietBlock(extended, scope)
    ensures Requests(extended) == Requests(records) + if IsProjection(kind) then requests else 0
    ensures Leaves(records, extended, {(d, Tensor(layer, input))}, {(id, Tensor(layer, output))})
  {
    OneProduct(layer, d, input);
    extended, id := Step(records, kind, layer, op, [d], [input], output, requests, [d], [e], scope);
  }

  /** A record that reads one output of each of two records. */
  method Binary(records: seq<Record>, kind: RecordKind, layer: nat, op: Op, a: int, x: Name, b: int, y: Name, output: Name,
                requests: int, ghost e: Math, ghost f: Math, ghost scope: Scope)
      returns (extended: seq<Record>, id: int)
    requires QuietBlock(records, scope) && layer < scope.layers
    requires !kind.AttentionScore? && !kind.AttentionContext? && ProjectsIn(kind, scope)
    requires !op.HiddenTileSetup? && !op.RouterInputSetup? && !OfAttention(op)
    requires Holds(records, a, Tensor(layer, x), e) && !Port(x)
    requires Holds(records, b, Tensor(layer, y), f) && !Port(y)
    requires !Leaf(output) && !QueryOperand(output)
    ensures Extends(records, extended, id, Tensor(layer, output), Outcome(kind, op, 0, [e, f]))
    ensures QuietBlock(extended, scope)
    ensures Requests(extended) == Requests(records) + if IsProjection(kind) then requests else 0
    ensures Leaves(records, extended, {(a, Tensor(layer, x)), (b, Tensor(layer, y))}, {(id, Tensor(layer, output))})
  {
    TwoProducts(layer, a, x, b, y);
    extended, id := Step(records, kind, layer, op, [a, b], [x, y], output, requests, [a, b], [e, f], scope);
  }

  // ---- what is left over ----

  lemma {:induction false} MoreProducts(layer: nat, ids: seq<int>, names: seq<Name>, id: int, name: Name)
    requires |ids| == |names|
    ensures Products(layer, ids + [id], names + [name]) == Products(layer, ids, names) + {(id, Tensor(layer, name))}
  {
    var more := Products(layer, ids + [id], names + [name]);
    forall p | p in Products(layer, ids, names)
      ensures p in more
    {
      var j :| 0 <= j < |ids| && p == (ids[j], Tensor(layer, names[j]));
      assert (ids + [id])[j] == ids[j] && (names + [name])[j] == names[j];
    }
    assert (ids + [id])[|ids|] == id && (names + [name])[|ids|] == name;
  }

  /** The last record of every layer. */
  ghost function Ends(ends: seq<int>, output: Name): set<Product> {
    set l: nat | l < |ends| :: (ends[l], Tensor(l, output))
  }

  lemma {:induction false} MoreEnds(ends: seq<int>, last: int, output: Name)
    ensures Ends(ends + [last], output) == Ends(ends, output) + {(last, Tensor(|ends|, output))}
  {
    var more := ends + [last];
    forall l: nat | l < |ends|
      ensures (ends[l], Tensor(l, output)) in Ends(more, output)
    {
      assert more[l] == ends[l];
    }
    assert more[|ends|] == last;
  }

  /** When nothing is left over but the layers' ends, an end waits for every record of its
      layer. */
  lemma {:induction false} EndReaches(rs: seq<Record>, scope: Scope, ends: seq<int>, output: Name, i: nat)
    requires AllQuiet(rs, scope) && i < |rs| && forall p :: Spare(rs, p) ==> p in Ends(ends, output)
    ensures rs[i].layer < |ends| && Reaches(rs, ends[rs[i].layer], rs[i].id)
  {
    forall k | 0 <= k < |rs| ensures OwnLayer(rs[k]) {
      QuietAt(rs, scope, k);
    }
    var p := LeadsToSpare(rs, i);
    assert p in Ends(ends, output);
  }
}
