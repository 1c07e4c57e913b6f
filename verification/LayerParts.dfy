/** The parts of one transformer layer around its attention block. */
module LayerParts {
  import opened Assembly
  import opened DataFlow
  import opened Manifests
  import opened Records
  import opened Relinking

  /** Shapes of the four attention projections. */
  datatype Dims = Dims(seqLen: int, hidden: int, datatyp: Datatype, qDim: int, kvDim: int, oDim: int)

  function Work(d: Dims, n: int, k: int): int {
    NumRequests(d.seqLen * n * k, d.datatyp)
  }

  // ---- projections ----

  /** A projection of the layer's hidden activations. */
  function Projected(op: Op): Math {
    Computed(op, [Given(Hidden), Given(ProjectionWeight(op))])
  }

  function ProjectionRecord(id: int, op: Op, output: Name, requests: int): Record {
    Record(id, FFNProjection, 0, op, [Tensor(0, Hidden), Tensor(0, ProjectionWeight(op))], [Tensor(0, output)], [], requests)
  }

  /** `_generate_decode_v2_qkvo_projection_records` for one layer. */
  function ProjectionBlock(d: Dims): seq<Record> {
    [ProjectionRecord(0, QProjection, Query, Work(d, d.qDim, d.hidden)),
     ProjectionRecord(1, KProjection, Key, Work(d, d.kvDim, d.hidden)),
     ProjectionRecord(2, VProjection, Value, Work(d, d.kvDim, d.hidden))]
  }

  lemma {:induction false} ProjectionFollows(env: Outputs, id: int, op: Op, output: Name, requests: int, ports: bool)
    requires forall k :: k in env ==> k < id
    requires !Leaf(output)
    ensures Follows(env, ProjectionRecord(id, op, output, requests), ports)
  {
  }

  lemma {:induction false} ProjectionBlockSound(d: Dims, ports: bool)
    ensures Numbered(ProjectionBlock(d)) && Sound(map[], ProjectionBlock(d), ports)
  {
    var b := ProjectionBlock(d);
    assert Sound(map[], [], ports);
    ProjectionFollows(map[], 0, QProjection, Query, b[0].requests, ports);
    Append(map[], [], b[0], ports);
    assert [] + [b[0]] == [b[0]];
    ProjectionFollows(After(map[], [b[0]]), 1, KProjection, Key, b[1].requests, ports);
    Append(map[], [b[0]], b[1], ports);
    assert [b[0]] + [b[1]] == [b[0], b[1]];
    ProjectionFollows(After(map[], [b[0], b[1]]), 2, VProjection, Value, b[2].requests, ports);
    Append(map[], [b[0], b[1]], b[2], ports);
    assert [b[0], b[1]] + [b[2]] == b;
  }

  lemma {:induction false} RequestsOfTwo(a: Record, b: Record)
    ensures Requests([a, b]) == MacRequests(a) + MacRequests(b)
  {
    TotalAppend(MacRequests, [], a);
    TotalAppend(MacRequests, [a], b);
    assert [] + [a] == [a] && [a] + [b] == [a, b];
  }

  lemma {:induction false} RequestsOfThree(a: Record, b: Record, c: Record)
    ensures Requests([a, b, c]) == MacRequests(a) + MacRequests(b) + MacRequests(c)
  {
    RequestsOfTwo(a, b);
    TotalAppend(MacRequests, [a, b], c);
    assert [a, b] + [c] == [a, b, c];
  }

  /** `[record for record in records if record["op"] == op][0]["record_id"]`. */
  method IdOf(records: seq<Record>, op: Op) returns (id: int)
    requires exists i :: 0 <= i < |records| && records[i].op == op
    ensures exists i :: 0 <= i < |records| && records[i].op == op && records[i].id == id
                     && forall j :: 0 <= j < i ==> records[j].op != op
  {
    var i := 0;
    while records[i].op != op
      invariant 0 <= i < |records|
      invariant forall j :: 0 <= j < i ==> records[j].op != op
      decreases |records| - i
    {
      i := i + 1;
    }
    id := records[i].id;
  }

  lemma {:induction false} PartHas(rs: seq<Record>, part: seq<Record>, i: nat, t: Tensor, ports: bool)
    requires Sound(Env(rs), part, ports) && i < |part|
    requires Env(rs + part) == After(Env(rs), part)
    requires t in part[i].outputs && forall u :: u in part[i].outputs ==> !QueryOperand(u.name)
    ensures Has(rs + part, part[i].id, t)
  {
    AfterSupplies(Env(rs), part, i, ports);
  }

  lemma {:induction false} OneOutputIsPlain(rs: seq<Record>, part: seq<Record>, i: nat, ports: bool)
    requires Sound(Env(rs), part, ports) && i < |part|
    requires Env(rs + part) == After(Env(rs), part)
    requires |part[i].outputs| == 1 && !part[i].outputs[0].name.Visible?
    ensures Plain(Env(rs + part), part[i].id)
  {
    PartHas(rs, part, i, part[i].outputs[0], ports);
  }

  function QkvRequests(d: Dims): int {
    Work(d, d.qDim, d.hidden) + 2 * Work(d, d.kvDim, d.hidden)
  }

  lemma {:induction false} PlacedProjections(d: Dims, next: int, layer: nat)
    ensures var p := Placed(ProjectionBlock(d), next, layer);
      && |p| == 3 && Quiet(p) && Requests(p) == QkvRequests(d) && Pure(p, QkvoBucket)
      && p[0].op == QProjection && p[0].outputs == [Tensor(layer, Query)]
      && p[1].op == KProjection && p[1].outputs == [Tensor(layer, Key)]
      && p[2].op == VProjection && p[2].outputs == [Tensor(layer, Value)]
  {
    var b := ProjectionBlock(d);
    var p := Placed(b, next, layer);
    assert |p| == 3;
    assert p[0].outputs == [Tensor(layer, Query)] && p[1].outputs == [Tensor(layer, Key)] && p[2].outputs == [Tensor(layer, Value)];
    assert p == [p[0], p[1], p[2]];
    RequestsOfThree(p[0], p[1], p[2]);
  }

  lemma {:induction false} ProjectionMeans(all: seq<Record>, j: nat, layer: nat, op: Op, output: Name)
    requires j < |all| && all[j].kind == FFNProjection && all[j].op == op && all[j].outputs == [Tensor(layer, output)]
    requires all[j].inputs == [Tensor(layer, Hidden), Tensor(layer, ProjectionWeight(op))]
    ensures Means(all, all[j].id, Tensor(layer, output), Projected(op))
  {
    var args := [Given(Hidden), Given(ProjectionWeight(op))];
    assert Computes(all, all[j].id, j, 0, Tensor(layer, output), args);
  }

  /** The projections of a layer, by the ids of their records. */
  ghost predicate ProjectionsMean(rs: seq<Record>, layer: nat, q: int, k: int, v: int) {
    && Means(rs, q, Tensor(layer, Query), Projected(QProjection))
    && Means(rs, k, Tensor(layer, Key), Projected(KProjection))
    && Means(rs, v, Tensor(layer, Value), Projected(VProjection))
  }

  lemma {:induction false} ProjectionsStay(rs: seq<Record>, more: seq<Record>, layer: nat, q: int, k: int, v: int)
    requires rs <= more && ProjectionsMean(rs, layer, q, k, v)
    ensures ProjectionsMean(more, layer, q, k, v)
  {
    MeansMore(rs, more, q, Tensor(layer, Query), Projected(QProjection));
    MeansMore(rs, more, k, Tensor(layer, Key), Projected(KProjection));
    MeansMore(rs, more, v, Tensor(layer, Value), Projected(VProjection));
  }

  lemma {:induction false} PlacedProjectionsMean(rs: seq<Record>, d: Dims, next: int, layer: nat, part: seq<Record>)
    requires part == Placed(ProjectionBlock(d), next, layer)
    ensures ProjectionsMean(rs + part, layer, next, next + 1, next + 2)
  {
    PlacedProjectionInputs(d, next, layer);
    var all, n := rs + part, |rs|;
    assert all[n] == part[0] && all[n + 1] == part[1] && all[n + 2] == part[2];
    ProjectionMeans(all, n, layer, QProjection, Query);
    ProjectionMeans(all, n + 1, layer, KProjection, Key);
    ProjectionMeans(all, n + 2, layer, VProjection, Value);
  }

  lemma {:induction false} PlacedProjectionInputs(d: Dims, next: int, layer: nat)
    ensures var p := Placed(ProjectionBlock(d), next, layer);
      && |p| == 3 && p[0].id == next && p[1].id == next + 1 && p[2].id == next + 2
      && (forall i :: 0 <= i < 3 ==> p[i].kind == FFNProjection && p[i].inputs == [Tensor(layer, Hidden), Tensor(layer, ProjectionWeight(p[i].op))])
      && p[0].op == QProjection && p[0].outputs == [Tensor(layer, Query)]
      && p[1].op == KProjection && p[1].outputs == [Tensor(layer, Key)]
      && p[2].op == VProjection && p[2].outputs == [Tensor(layer, Value)]
  {
    var p := Placed(ProjectionBlock(d), next, layer);
    assert p[0].outputs == [Tensor(layer, Query)] && p[1].outputs == [Tensor(layer, Key)] && p[2].outputs == [Tensor(layer, Value)];
    forall i | 0 <= i < 3
      ensures p[i].inputs == [Tensor(layer, Hidden), Tensor(layer, ProjectionWeight(p[i].op))]
    {
      assert ProjectionBlock(d)[i].inputs == [Tensor(0, Hidden), Tensor(0, ProjectionWeight(p[i].op))];
    }
  }

  /** Q, K and V projections, placed; and the ids the layer looks up by op. */
  method AddProjections(ghost rs: seq<Record>, next: int, layer: nat, d: Dims, ghost ports: bool)
      returns (part: seq<Record>, next2: int, q: int, k: int, v: int)
    requires Trace(rs, next, ports)
    ensures Extended(rs, part, next, next2, layer, ports) && Quiet(part) && Requests(part) == QkvRequests(d)
    ensures Pure(part, QkvoBucket)
    ensures Has(rs + part, q, Tensor(layer, Query)) && Has(rs + part, k, Tensor(layer, Key)) && Has(rs + part, v, Tensor(layer, Value))
    ensures ProjectionsMean(rs + part, layer, q, k, v)
  {
    var block := ProjectionBlock(d);
    ProjectionBlockSound(d, ports);
    part, next2 := Install(block, next, layer, ports);
    ClosedBlockJoins(rs, next, block, layer, ports);
    PlacedProjections(d, next, layer);
    q, k, v := ProjectionIds(rs, part, layer, ports);
    PlacedProjectionInputs(d, next, layer);
    PlacedProjectionsMean(rs, d, next, layer, part);
  }

  method ProjectionIds(ghost rs: seq<Record>, part: seq<Record>, ghost layer: nat, ghost ports: bool)
      returns (q: int, k: int, v: int)
    requires Sound(Env(rs), part, ports) && Env(rs + part) == After(Env(rs), part) && |part| == 3
    requires part[0].op == QProjection && part[0].outputs == [Tensor(layer, Query)]
    requires part[1].op == KProjection && part[1].outputs == [Tensor(layer, Key)]
    requires part[2].op == VProjection && part[2].outputs == [Tensor(layer, Value)]
    ensures Has(rs + part, q, Tensor(layer, Query)) && Has(rs + part, k, Tensor(layer, Key)) && Has(rs + part, v, Tensor(layer, Value))
    ensures q == part[0].id && k == part[1].id && v == part[2].id
  {
    PartHas(rs, part, 0, Tensor(layer, Query), ports);
    PartHas(rs, part, 1, Tensor(layer, Key), ports);
    PartHas(rs, part, 2, Tensor(layer, Value), ports);
    q := IdOf(part, QProjection);
    k := IdOf(part, KProjection);
    v := IdOf(part, VProjection);
  }

  // ---- cache writes ----

  function CacheWrite(id: int, op: Op, input: Name, output: Name): Record {
    Record(id, HostWrite, 0, op, [Tensor(0, input)], [Tensor(0, output)], [], 1)
  }

  /** `_generate_decode_v2_kv_cache_write_records` and its prefill counterpart. */
  function CacheWriteBlock(prefill: bool): seq<Record> {
    if prefill then
      [CacheWrite(0, KvCachePrefill(true), Key, CachedPrompt(true)), CacheWrite(1, KvCachePrefill(false), Value, CachedPrompt(false))]
    else
      [CacheWrite(0, KvCacheAppend(true), Key, CachedToken(true)), CacheWrite(1, KvCacheAppend(false), Value, CachedToken(false))]
  }

  lemma {:induction false} CacheWriteBlockSound(prefill: bool)
    ensures Numbered(CacheWriteBlock(prefill)) && Sound(map[], CacheWriteBlock(prefill), true)
  {
    var b := CacheWriteBlock(prefill);
    assert b[1..] == [b[1]] && b[1..][1..] == [];
    assert Follows(map[], b[0], true);
    assert Follows(map[0 := b[0].outputs], b[1], true);
  }

  function CacheOp(prefill: bool, isKey: bool): Op {
    if prefill then KvCachePrefill(isKey) else KvCacheAppend(isKey)
  }

  predicate CacheOps(op: Op) {
    op.KvCachePrefill? || op.KvCacheAppend?
  }

  /** The loop that makes each cache write depend on the projection it stores. */
  function LinkCacheWrite(r: Record, prefill: bool, k: int, v: int): Record {
    if r.op == CacheOp(prefill, true) then r.(deps := [k])
    else if r.op == CacheOp(prefill, false) then r.(deps := [v])
    else r
  }

  lemma {:induction false} CacheWriteRewired(rs: seq<Record>, r: Record, layer: nat, prefill: bool, isKey: bool, k: int, v: int, ports: bool)
    requires r.op == CacheOp(prefill, isKey)
    requires r.kind == HostWrite && r.inputs == [Tensor(layer, if isKey then Key else Value)]
    requires Has(rs, if isKey then k else v, Tensor(layer, if isKey then Key else Value))
    ensures Rewired(Env(rs), r, LinkCacheWrite(r, prefill, k, v), ports)
  {
    var d := if isKey then k else v;
    var w := LinkCacheWrite(r, prefill, k, v);
    assert w.deps == [d] && d in w.deps;
    assert Supplies(Env(rs), d, Tensor(layer, if isKey then Key else Value));
  }

  lemma {:induction false} PlacedCacheWrites(prefill: bool, next: int, layer: nat)
    ensures var p := Placed(CacheWriteBlock(prefill), next, layer);
      && |p| == 2
      && (forall i :: 0 <= i < 2 ==> p[i].kind == HostWrite && p[i].layer == layer && |p[i].outputs| == 1)
      && (forall i :: 0 <= i < 2 ==> p[i].outputs[0].name.CachedToken? == !prefill && !p[i].outputs[0].name.Visible?)
      && p[0].op == CacheOp(prefill, true) && p[0].inputs == [Tensor(layer, Key)]
      && p[1].op == CacheOp(prefill, false) && p[1].inputs == [Tensor(layer, Value)]
  {
    var p := Placed(CacheWriteBlock(prefill), next, layer);
    assert p[0].inputs == [Tensor(layer, Key)] && p[1].inputs == [Tensor(layer, Value)];
  }

  method LinkCacheWrites(placed: seq<Record>, prefill: bool, k: int, v: int) returns (part: seq<Record>)
    ensures |part| == |placed|
    ensures forall i :: 0 <= i < |part| ==> part[i] == LinkCacheWrite(placed[i], prefill, k, v)
  {
    part := [];
    for i := 0 to |placed|
      invariant |part| == i
      invariant forall j :: 0 <= j < i ==> part[j] == LinkCacheWrite(placed[j], prefill, k, v)
    {
      part := part + [LinkCacheWrite(placed[i], prefill, k, v)];
    }
  }

  /** The record that stores the layer's keys or values, as soon as they are computed. */
  ghost predicate Stores(part: seq<Record>, layer: nat, prefill: bool, isKey: bool, write: int, source: int) {
    exists i: nat :: i < |part| && StoresAt(part, i, layer, prefill, isKey, write, source)
  }

  predicate StoresAt(part: seq<Record>, i: nat, layer: nat, prefill: bool, isKey: bool, write: int, source: int)
    requires i < |part|
  {
    && part[i].id == write && part[i].kind == HostWrite && part[i].op == CacheOp(prefill, isKey)
    && part[i].inputs == [Tensor(layer, if isKey then Key else Value)] && part[i].deps == [source]
  }

  lemma {:induction false} StoresWithin(before: seq<Record>, part: seq<Record>, layer: nat, prefill: bool, isKey: bool, write: int, source: int)
    requires Stores(part, layer, prefill, isKey, write, source)
    ensures Stores(before + part, layer, prefill, isKey, write, source)
  {
    var i: nat :| i < |part| && StoresAt(part, i, layer, prefill, isKey, write, source);
    assert StoresAt(before + part, |before| + i, layer, prefill, isKey, write, source);
  }

  lemma {:induction false} CacheWritesStore(next: int, part: seq<Record>, layer: nat, prefill: bool, k: int, v: int)
    requires |part| == 2 && forall i :: 0 <= i < |part| ==>
      part[i] == LinkCacheWrite(Placed(CacheWriteBlock(prefill), next, layer)[i], prefill, k, v)
    ensures Stores(part, layer, prefill, true, part[0].id, k) && Stores(part, layer, prefill, false, part[1].id, v)
  {
    PlacedCacheWrites(prefill, next, layer);
    assert StoresAt(part, 0, layer, prefill, true, part[0].id, k);
    assert StoresAt(part, 1, layer, prefill, false, part[1].id, v);
  }

  lemma {:induction false} CacheWritesExtend(rs: seq<Record>, next: int, part: seq<Record>, layer: nat, prefill: bool, k: int, v: int, ports: bool)
    requires Trace(rs, next, ports)
    requires Has(rs, k, Tensor(layer, Key)) && Has(rs, v, Tensor(layer, Value))
    requires |part| == 2 && forall i :: 0 <= i < |part| ==>
      part[i] == LinkCacheWrite(Placed(CacheWriteBlock(prefill), next, layer)[i], prefill, k, v)
    ensures Extended(rs, part, next, next + 2, layer, ports)
    ensures Sound(Env(rs), part, ports) && Env(rs + part) == After(Env(rs), part)
  {
    var placed := Placed(CacheWriteBlock(prefill), next, layer);
    CacheWriteBlockSound(prefill);
    PlacedCacheWrites(prefill, next, layer);
    CacheWriteRewired(rs, placed[0], layer, prefill, true, k, v, ports);
    CacheWriteRewired(rs, placed[1], layer, prefill, false, k, v, ports);
    RelinkedBlockJoins(rs, next, CacheWriteBlock(prefill), part, layer, ports);
  }

  lemma {:induction false} LinkedCacheWrites(next: int, part: seq<Record>, layer: nat, prefill: bool, k: int, v: int)
    requires |part| == 2 && forall i :: 0 <= i < |part| ==>
      part[i] == LinkCacheWrite(Placed(CacheWriteBlock(prefill), next, layer)[i], prefill, k, v)
    ensures part[0].kind == part[1].kind == HostWrite
    ensures forall i :: 0 <= i < 2 ==> |part[i].outputs| == 1 && !part[i].outputs[0].name.Visible? && CacheOps(part[i].op)
    ensures part[0].op == CacheOp(prefill, true) && part[1].op == CacheOp(prefill, false)
  {
    PlacedCacheWrites(prefill, next, layer);
  }

  lemma {:induction false} HostWritesArePlain(rs: seq<Record>, part: seq<Record>, ports: bool)
    requires Sound(Env(rs), part, ports) && Env(rs + part) == After(Env(rs), part)
    requires |part| == 2 && part[0].kind == part[1].kind == HostWrite
    requires forall i :: 0 <= i < 2 ==> |part[i].outputs| == 1 && !part[i].outputs[0].name.Visible? && CacheOps(part[i].op)
    ensures Quiet(part) && Requests(part) == 0 && Idle(part)
    ensures Plain(Env(rs + part), part[0].id) && Plain(Env(rs + part), part[1].id)
  {
    OneOutputIsPlain(rs, part, 0, ports);
    OneOutputIsPlain(rs, part, 1, ports);
    HostWritesAreFree(part);
  }

  lemma {:induction false} CacheWritesJoin(rs: seq<Record>, next: int, part: seq<Record>, layer: nat, prefill: bool, k: int, v: int, ports: bool)
    requires Trace(rs, next, ports)
    requires Has(rs, k, Tensor(layer, Key)) && Has(rs, v, Tensor(layer, Value))
    requires |part| == 2 && forall i :: 0 <= i < |part| ==>
      part[i] == LinkCacheWrite(Placed(CacheWriteBlock(prefill), next, layer)[i], prefill, k, v)
    ensures Extended(rs, part, next, next + 2, layer, ports) && Quiet(part) && Requests(part) == 0 && Idle(part)
    ensures Plain(Env(rs + part), part[0].id) && Plain(Env(rs + part), part[1].id)
    ensures part[0].op == CacheOp(prefill, true)
    ensures part[1].op == CacheOp(prefill, false)
  {
    CacheWritesExtend(rs, next, part, layer, prefill, k, v, ports);
    LinkedCacheWrites(next, part, layer, prefill, k, v);
    HostWritesArePlain(rs, part, ports);
  }

  method AddCacheWrites(ghost rs: seq<Record>, next: int, layer: nat, prefill: bool, k: int, v: int, ghost ports: bool)
      returns (part: seq<Record>, next2: int, keyWrite: int, valueWrite: int)
    requires Trace(rs, next, ports)
    requires Has(rs, k, Tensor(layer, Key)) && Has(rs, v, Tensor(layer, Value))
    ensures Extended(rs, part, next, next2, layer, ports) && Quiet(part) && Requests(part) == 0 && Idle(part)
    ensures Plain(Env(rs + part), keyWrite) && Plain(Env(rs + part), valueWrite)
    ensures Stores(part, layer, prefill, true, keyWrite, k) && Stores(part, layer, prefill, false, valueWrite, v)
  {
    CacheWriteBlockSound(prefill);
    var placed;
    placed, next2 := Install(CacheWriteBlock(prefill), next, layer, true);
    part := LinkCacheWrites(placed, prefill, k, v);
    CacheWritesJoin(rs, next, part, layer, prefill, k, v, ports);
    CacheWritesStore(next, part, layer, prefill, k, v);
    keyWrite, valueWrite := CacheWriteIds(part, prefill);
  }

  method CacheWriteIds(part: seq<Record>, prefill: bool) returns (keyWrite: int, valueWrite: int)
    requires |part| == 2 && part[0].op == CacheOp(prefill, true) && part[1].op == CacheOp(prefill, false)
    ensures keyWrite == part[0].id && valueWrite == part[1].id
  {
    keyWrite := IdOf(part, CacheOp(prefill, true));
    valueWrite := IdOf(part, CacheOp(prefill, false));
  }

  lemma {:induction false} HostWritesAreFree(part: seq<Record>)
    requires |part| == 2 && part[0].kind == HostWrite && part[1].kind == HostWrite
    ensures Requests(part) == 0
  {
    RequestsOfTwo(part[0], part[1]);
    assert part == [part[0], part[1]];
  }

  // ---- everything before attention ----

  /** Layer-start barrier, Q/K/V projections and cache writes. */
  method Prelude(ghost rs: seq<Record>, next: int, layer: nat, d: Dims, prefill: bool, ghost ports: bool)
      returns (part: seq<Record>, next2: int, q: int, k: int, v: int, keyWrite: int, valueWrite: int)
    requires Trace(rs, next, ports)
    ensures Extended(rs, part, next, next2, layer, ports) && Quiet(part) && Requests(part) == QkvRequests(d)
    ensures Pure(part, QkvoBucket)
    ensures Has(rs + part, q, Tensor(layer, Query)) && Has(rs + part, k, Tensor(layer, Key)) && Has(rs + part, v, Tensor(layer, Value))
    ensures Plain(Env(rs + part), keyWrite) && Plain(Env(rs + part), valueWrite)
    ensures ProjectionsMean(rs + part, layer, q, k, v)
    ensures Stores(part, layer, prefill, true, keyWrite, k) && Stores(part, layer, prefill, false, valueWrite, v)
  {
    var marker, n1 := AddMarker(rs, next, layer, Barrier, LayerStart, ports);
    var projections, n2;
    projections, n2, q, k, v := AddProjections(rs + marker, n1, layer, d, ports);
    ghost var before := rs + marker + projections;
    var writes;
    writes, next2, keyWrite, valueWrite := AddCacheWrites(before, n2, layer, prefill, k, v, ports);
    part := marker + projections + writes;
    HasKept(before, writes, n2, next2, layer, ports, q, Tensor(layer, Query));
    HasKept(before, writes, n2, next2, layer, ports, k, Tensor(layer, Key));
    HasKept(before, writes, n2, next2, layer, ports, v, Tensor(layer, Value));
    PreludeJoins(rs, marker, projections, writes, next, n1, n2, next2, layer, ports);
    ProjectionsStay(before, rs + part, layer, q, k, v);
    StoresWithin(marker + projections, writes, layer, prefill, true, keyWrite, k);
    StoresWithin(marker + projections, writes, layer, prefill, false, valueWrite, v);
  }

  lemma {:induction false} HasKept(rs: seq<Record>, part: seq<Record>, next: int, next2: int, layer: nat, ports: bool, id: int, t: Tensor)
    requires Extended(rs, part, next, next2, layer, ports) && Has(rs, id, t)
    ensures Has(rs + part, id, t)
  {
  }

  lemma {:induction false} PreludeJoins(rs: seq<Record>, a: seq<Record>, b: seq<Record>, c: seq<Record>, next: int, n1: int, n2: int, n3: int,
                     layer: nat, ports: bool)
    requires Extended(rs, a, next, n1, layer, ports) && Extended(rs + a, b, n1, n2, layer, ports)
    requires Extended(rs + a + b, c, n2, n3, layer, ports)
    requires Quiet(a) && Quiet(b) && Quiet(c) && Idle(a) && Pure(b, QkvoBucket) && Idle(c)
    ensures Extended(rs, a + b + c, next, n3, layer, ports) && Quiet(a + b + c)
    ensures Pure(a + b + c, QkvoBucket)
    ensures rs + (a + b + c) == rs + a + b + c
    ensures Requests(a + b + c) == Requests(a) + Requests(b) + Requests(c)
  {
    ExtendTwice(rs, a, b, next, n1, n2, layer, ports);
    assert rs + a + b == rs + (a + b);
    ExtendTwice(rs, a + b, c, next, n2, n3, layer, ports);
    QuietConcat(a, b);
    QuietConcat(a + b, c);
  }
}
