/** What an attention block computes in its layer: the attention of every head, from the
    layer's own projections and its cache. */
module AttentionMath {
  import opened Assembly
  import opened Attention
  import opened AttentionParts
  import opened DataFlow
  import opened DecodeAttention
  import opened Delivery
  import opened LayerParts
  import opened Linkage
  import opened Manifests
  import opened Records
  import opened Relinking
  import opened Results
  import opened Sequences

  // ---- every record of a sound trace has a value ----

  ghost predicate Found(rs: seq<Record>, id: int, deps: seq<int>, t: Tensor) {
    exists e :: Finds(rs, id, deps, t, e)
  }

  ghost predicate Valued(rs: seq<Record>, id: int, t: Tensor) {
    exists e :: Means(rs, id, t, e)
  }

  ghost function FoundValue(rs: seq<Record>, id: int, deps: seq<int>, t: Tensor): (e: Math)
    requires Found(rs, id, deps, t)
    ensures Finds(rs, id, deps, t, e)
  {
    var e :| Finds(rs, id, deps, t, e); e
  }

  ghost predicate Natural(rs: seq<Record>) {
    forall i :: 0 <= i < |rs| ==> rs[i].id >= 0
  }

  lemma {:induction false} TraceIsNatural(rs: seq<Record>, next: int, ports: bool)
    requires Trace(rs, next, ports)
    ensures Natural(rs) && forall i :: 0 <= i < |rs| ==> rs[i].id < next
  {
    forall i | 0 <= i < |rs| ensures 0 <= rs[i].id < next {
      InAfter(map[], rs, rs[i].id);
      assert rs[i].id in Env(rs);
    }
  }

  lemma {:induction false} EveryOutputValued(rs: seq<Record>, i: nat, t: Tensor, ports: bool)
    requires Sound(map[], rs, ports) && Natural(rs) && i < |rs| && t in rs[i].outputs
    ensures Valued(rs, rs[i].id, t)
    decreases i, 1
  {
    var r := rs[i];
    forall j: nat | j < |r.inputs| ensures Found(rs, r.id, r.deps, r.inputs[j]) {
      InputFound(rs, i, r.inputs[j], ports);
    }
    var args := seq(|r.inputs|, j requires 0 <= j < |r.inputs| => FoundValue(rs, r.id, r.deps, r.inputs[j]));
    var k: nat :| k < |r.outputs| && r.outputs[k] == t;
    assert Computes(rs, r.id, i, k, t, args);
    assert Means(rs, r.id, t, Outcome(r.kind, r.op, k, args));
  }

  lemma {:induction false} InputFound(rs: seq<Record>, i: nat, t: Tensor, ports: bool)
    requires Sound(map[], rs, ports) && Natural(rs) && i < |rs| && t in rs[i].inputs
    ensures Found(rs, rs[i].id, rs[i].deps, t)
    decreases i, 0
  {
    var r := rs[i];
    SoundAt(map[], rs, i, ports);
    var env := After(map[], rs[..i]);
    assert Fed(env, r.deps, t, ports);
    if Leaf(t.name) || Port(t.name) {
      assert Finds(rs, r.id, r.deps, t, Given(t.name));
    } else {
      var d :| d in r.deps && Supplies(env, d, t);
      AfterHolds(map[], rs[..i], d);
      var j: nat :| j < i && rs[..i][j].id == d && rs[..i][j].outputs == env[d];
      EveryOutputValued(rs, j, t, ports);
      var e :| Means(rs, d, t, e);
      assert Finds(rs, r.id, r.deps, t, e);
    }
  }

  // ---- the attention of a part, in its layer ----

  /** The layer's query. */
  function LayerQuery(): Math {
    Computed(QOperandResidency, [Projected(QProjection)])
  }

  /** A tile of a decode head comes from the cache, one of the prompt from the layer's
      own key and value projections. */
  function LayerTile(part: Part, tile: nat, isKey: bool): Math {
    if part.query.None? then Given(CacheTile(part.head, tile, isKey))
    else Computed(PrefillTileResidency(isKey), [Projected(if isKey then KProjection else VProjection)])
  }

  function LayerTiles(part: Part, isKey: bool): (tiles: seq<Math>)
    ensures |tiles| == |part.tiles|
  {
    seq(|part.tiles|, j requires 0 <= j < |part.tiles| => LayerTile(part, part.tiles[j], isKey))
  }

  /** Attention of the layer's query to the part's tiles. */
  function InLayer(part: Part): Math {
    AttendOver(LayerQuery(), LayerTiles(part, true), LayerTiles(part, false))
  }

  lemma {:induction false} PairLinked(op: Op, a: Math, b: Math, w: Wiring)
    requires w.For(op).None?
    ensures Linked(Computed(op, [a, b]), w) == Computed(op, [Linked(a, w), Linked(b, w)])
  {
    assert LinkedAll([a, b], w) == [Linked(a, w), Linked(b, w)];
  }

  lemma {:induction false} WeightsLinked(q: Math, keys: seq<Math>, w: Wiring)
    ensures Linked(WeightsOf(q, keys), w) == WeightsOf(Linked(q, w), LinkedAll(keys, w))
  {
    var scores := seq(|keys|, j requires 0 <= j < |keys| => Computed(ScoreOp, [q, keys[j]]));
    forall j | 0 <= j < |keys| ensures LinkedAll(scores, w)[j] == Computed(ScoreOp, [Linked(q, w), LinkedAll(keys, w)[j]]) {
      PairLinked(ScoreOp, q, keys[j], w);
    }
    assert LinkedAll(scores, w) == seq(|keys|, j requires 0 <= j < |keys| => Computed(ScoreOp, [Linked(q, w), LinkedAll(keys, w)[j]]));
  }

  lemma {:induction false} AttendLinked(q: Math, keys: seq<Math>, values: seq<Math>, w: Wiring)
    requires |keys| == |values|
    ensures Linked(AttendOver(q, keys, values), w) == AttendOver(Linked(q, w), LinkedAll(keys, w), LinkedAll(values, w))
  {
    var n, weights := |keys|, WeightsOf(q, keys);
    WeightsLinked(q, keys, w);
    var contexts := seq(n, j requires 0 <= j < n => Computed(ContextOp, [Share(j, weights), values[j]]));
    forall j | 0 <= j < n
      ensures LinkedAll(contexts, w)[j] == Computed(ContextOp, [Share(j, Linked(weights, w)), LinkedAll(values, w)[j]])
    {
      PairLinked(ContextOp, Share(j, weights), values[j], w);
    }
    assert LinkedAll(contexts, w)
        == seq(n, j requires 0 <= j < n => Computed(ContextOp, [Share(j, Linked(weights, w)), LinkedAll(values, w)[j]]));
  }

  /** The wiring brings in the layer's projections. */
  predicate Wires(w: Wiring, prompt: bool) {
    && w.query == Some(Projected(QProjection))
    && (prompt ==> w.key == Some(Projected(KProjection)) && w.value == Some(Projected(VProjection)))
  }

  lemma {:induction false} PartInLayer(part: Part, w: Wiring)
    requires Wires(w, part.query.Some?)
    ensures Linked(part.Attend(), w) == InLayer(part)
  {
    PartAttends(part);
    AttendLinked(part.QueryMath(), KeyMaths(part), ValueMaths(part), w);
    assert LinkedAll(KeyMaths(part), w) == LayerTiles(part, true);
    assert LinkedAll(ValueMaths(part), w) == LayerTiles(part, false);
  }

  // ---- attention blocks in their place ----

  /** The block has a result for every part. */
  ghost predicate BlockAttends(block: seq<Record>, parts: set<Part>) {
    forall p <- parts :: Attended(block, 0, p)
  }

  /** In the trace, some terminal of `placed` is the attention of `p` in its layer. */
  ghost predicate AttendsTo(rs: seq<Record>, placed: seq<Record>, layer: nat, p: Part) {
    exists end :: end in TerminalIds(placed) && Means(rs, end, Tensor(layer, p.EndName()), InLayer(p))
  }

  ghost predicate Attends(rs: seq<Record>, placed: seq<Record>, layer: nat, parts: set<Part>) {
    forall p <- parts :: AttendsTo(rs, placed, layer, p)
  }

  lemma {:induction false} ShiftAllHas(ids: seq<int>, start: int, x: int)
    ensures x + start in ShiftAll(ids, start) <==> x in ids
  {
    if x in ids {
      var j :| 0 <= j < |ids| && ids[j] == x;
      assert ShiftAll(ids, start)[j] == x + start;
    }
    if x + start in ShiftAll(ids, start) {
      var j :| 0 <= j < |ids| && ShiftAll(ids, start)[j] == x + start;
      assert ids[j] == x;
    }
  }

  lemma {:induction false} TerminalPlaced(block: seq<Record>, placed: seq<Record>, start: int, layer: nat, x: int)
    requires TerminalIn(block, x)
    requires Reductions(placed) == Reductions(Placed(block, start, layer)) && Contexts(placed) == Contexts(Placed(block, start, layer))
    requires Consumed(placed) == Consumed(Placed(block, start, layer))
    ensures x + start in TerminalIds(placed)
  {
    PlacedIds(block, start, layer);
    ShiftAllHas(Reductions(block), start, x);
    ShiftAllHas(Contexts(block), start, x);
    ShiftAllHas(Consumed(block), start, x);
  }

  // ---- prefill ----

  function PromptWiring(): Wiring {
    Wiring(Some(Projected(QProjection)), Some(Projected(KProjection)), Some(Projected(VProjection)), None)
  }

  /** What the projections of the layer hold, for records from `next` on. */
  ghost predicate ProjectionsAt(rs: seq<Record>, next: int, layer: nat, q: int, k: int, v: int) {
    ProjectionsMean(rs, layer, q, k, v) && 0 <= q < next && 0 <= k < next && 0 <= v < next
  }

  lemma {:induction false} PromptRecordInPlace(rs: seq<Record>, all: seq<Record>, r: Record, j: nat, next: int, layer: nat, q: int, k: int, v: int)
    requires ProjectionsAt(rs, next, layer, q, k, v) && rs <= all && j < |all| && r.id >= 0
    requires AttentionShape(r) && TilesInScope(r, Scope(1, true)) && all[j] == LinkPrefill(Retarget(Shift(r, next), layer), layer, q, k, v)
    ensures InPlace(all, r, next, layer, PromptWiring())
  {
    var p := all[j];
    ProjectionsStay(rs, all, layer, q, k, v);
    assert Wired(all, r, p, next, layer, PromptWiring()) by {
      if PromptWiring().For(r.op).None? {
        forall d | d in r.deps ensures d + next in p.deps {
          ShiftAllHas(r.deps, next, d);
        }
      }
    }
  }

  lemma {:induction false} PromptInPlace(rs: seq<Record>, block: seq<Record>, part: seq<Record>, next: int, layer: nat, q: int, k: int, v: int, i: nat)
    requires ProjectionsAt(rs, next, layer, q, k, v) && AttentionBlock(block, Scope(1, true)) && i < |block|
    requires |part| == |block| && forall j :: 0 <= j < |part| ==> part[j] == LinkPrefill(Placed(block, next, layer)[j], layer, q, k, v)
    ensures InPlace(rs + part, block[i], next, layer, PromptWiring())
  {
    ShapedAt(block, Scope(1, true), i);
    assert (rs + part)[|rs| + i] == part[i];
    PromptRecordInPlace(rs, rs + part, block[i], |rs| + i, next, layer, q, k, v);
  }

  /** Prefill attention in its place attends with the layer's projections. */
  lemma {:induction false} PromptAttends(rs: seq<Record>, block: seq<Record>, part: seq<Record>, next: int, layer: nat, q: int, k: int, v: int,
                                         parts: set<Part>)
    requires ProjectionsAt(rs, next, layer, q, k, v) && AttentionBlock(block, Scope(1, true)) && BlockAttends(block, parts)
    requires |part| == |block| && forall j :: 0 <= j < |part| ==> part[j] == LinkPrefill(Placed(block, next, layer)[j], layer, q, k, v)
    ensures Attends(rs + part, part, layer, parts)
  {
    forall i: nat | i < |block| ensures InPlace(rs + part, block[i], next, layer, PromptWiring()) {
      PromptInPlace(rs, block, part, next, layer, q, k, v, i);
    }
    LinkedResults(Placed(block, next, layer), part, layer, q, k, v);
    forall p | p in parts ensures AttendsTo(rs + part, part, layer, p) {
      assert Attended(block, 0, p);
      var end :| TerminalIn(block, end) && Holds(block, end, Tensor(0, p.EndName()), p.Attend());
      Carried(block, rs + part, next, layer, PromptWiring(), end, Tensor(0, p.EndName()), p.Attend());
      PartInLayer(p, PromptWiring());
      TerminalPlaced(block, part, next, layer, end);
    }
  }

  // ---- decode ----

  lemma {:induction false} DedupedKeeps(rs: seq<Record>, a: Anchors, i: nat) returns (j: nat)
    requires i < |rs| && !Dropped(rs[i], a)
    ensures j < |Deduped(rs, a)| && Deduped(rs, a)[j] == RelinkDecode(rs[i], a)
    decreases |rs|
  {
    if i == 0 {
      j := 0;
    } else {
      j := DedupedKeeps(rs[1..], a, i - 1);
      if !Dropped(rs[0], a) {
        assert Deduped(rs, a) == [RelinkDecode(rs[0], a)] + Deduped(rs[1..], a);
        j := j + 1;
      } else {
        assert Deduped(rs, a) == [] + Deduped(rs[1..], a);
      }
    }
  }

  /** The records of a decode block, before they are placed. */
  lemma {:induction false} BlockQueriesApart(block: seq<Record>, scope: Scope, i: nat)
    requires AttentionBlock(block, scope) && i < |block|
    ensures QueriesApart(block[i]) && AttentionShape(block[i]) && TilesInScope(block[i], scope)
  {
    var r := block[i];
    ShapedAt(block, scope, i);
    SoundAt(map[], block, i, true);
    if !r.kind.AttentionScore? {
      forall t | t in r.inputs ensures !QueryOperand(t.name) {
        PlainInputs(After(map[], block[..i]), r, t);
      }
    }
    forall m | 1 <= m < |r.inputs| && r.kind.AttentionScore?
      ensures !QueryOperand(r.inputs[m].name)
    {
    }
  }

  function BlockQueries(block: seq<Record>): set<int> {
    set x | x in FlatMap(QueryId, block)
  }

  lemma {:induction false} QueriesPlaced(block: seq<Record>, next: int, layer: nat)
    ensures FlatMap(QueryId, Placed(block, next, layer)) == ShiftAll(FlatMap(QueryId, block), next)
  {
    PlacedFold(QueryId, block, next, layer);
  }

  /** The query residency that all scores share. */
  lemma {:induction false} SharedQuery(rs: seq<Record>, all: seq<Record>, j: nat, a: Anchors, r: Record)
    requires rs <= all && j < |all| && all[j] == RelinkDecode(r, a) && IsQueryResidency(r) && a.keep == Some(r.id)
    requires Means(rs, a.query, Tensor(a.layer, Query), Projected(QProjection)) && 0 <= a.query < r.id
    ensures Means(all, r.id, a.GlobalQuery(), LayerQuery())
  {
    MeansMore(rs, all, a.query, Tensor(a.layer, Query), Projected(QProjection));
    assert a.query in all[j].deps;
    assert Computes(all, r.id, j, 0, a.GlobalQuery(), [Projected(QProjection)]);
  }

  /** A kept record that is not a query residency, in its place. */
  lemma {:induction false} RelinkedInPlace(all: seq<Record>, r: Record, j: nat, next: int, layer: nat, a: Anchors, block: seq<Record>)
    requires j < |all| && all[j] == RelinkDecode(Retarget(Shift(r, next), layer), a) && !IsQueryResidency(r)
    requires QueriesApart(r) && AttentionShape(r) && r.layer == 0 && r.id > 0
    requires a.layer == layer && a.keep == Some(next) && a.queries == ShiftAll(FlatMap(QueryId, block), next) && next >= 0
    requires Means(all, next, a.GlobalQuery(), LayerQuery())
    ensures StaysInPlace(all, r, next, layer, Projected(QProjection), BlockQueries(block))
  {
    var p := all[j];
    forall d | d in r.deps && d !in BlockQueries(block) ensures d + next in p.deps {
      ShiftAllHas(r.deps, next, d);
      ShiftAllHas(FlatMap(QueryId, block), next, d);
    }
    if r.kind.AttentionScore? {
      assert next in a.Canonical() && next in p.deps;
      assert ReadsQuery(all, r, p, next, layer, Projected(QProjection));
    }
    assert KeptInPlace(all, r, p, next, layer, Projected(QProjection), BlockQueries(block));
  }

  lemma {:induction false} SharedQueryInPlace(rs: seq<Record>, placed: seq<Record>, a: Anchors)
    requires placed != [] && IsQueryResidency(placed[0]) && a.keep == Some(placed[0].id)
    requires Means(rs, a.query, Tensor(a.layer, Query), Projected(QProjection)) && 0 <= a.query < placed[0].id
    ensures Means(rs + Deduped(placed, a), placed[0].id, a.GlobalQuery(), LayerQuery())
  {
    var all := rs + Deduped(placed, a);
    var first := DedupedKeeps(placed, a, 0);
    assert all[|rs| + first] == Deduped(placed, a)[first];
    SharedQuery(rs, all, |rs| + first, a, placed[0]);
  }

  /** Every record of a decode block but the query residencies is in its place. */
  lemma {:induction false} DecodeRecordInPlace(rs: seq<Record>, block: seq<Record>, next: int, layer: nat, q: int, keyAppend: int,
                                               valueAppend: int, i: nat)
    requires AttentionBlock(block, Scope(1, false)) && i < |block| && !IsQueryResidency(block[i])
    requires Means(rs, q, Tensor(layer, Query), Projected(QProjection)) && 0 <= q < next
    ensures StaysInPlace(rs + DecodePart(block, next, layer, q, keyAppend, valueAppend), block[i], next, layer, Projected(QProjection),
                         BlockQueries(block))
  {
    var placed := Placed(block, next, layer);
    var a := DecodeAnchors(placed, layer, q, keyAppend, valueAppend, next);
    var all := rs + Deduped(placed, a);
    BlockQueriesApart(block, Scope(1, false), i);
    QueriesPlaced(block, next, layer);
    SharedQueryInPlace(rs, placed, a);
    var j := DedupedKeeps(placed, a, i);
    assert all[|rs| + j] == Deduped(placed, a)[j];
    RelinkedInPlace(all, block[i], |rs| + j, next, layer, a, block);
  }

  lemma {:induction false} DecodeInPlace(rs: seq<Record>, block: seq<Record>, next: int, layer: nat, q: int, keyAppend: int, valueAppend: int)
    requires AttentionBlock(block, Scope(1, false))
    requires Means(rs, q, Tensor(layer, Query), Projected(QProjection)) && 0 <= q < next
    ensures DedupedInPlace(block, rs + DecodePart(block, next, layer, q, keyAppend, valueAppend), next, layer, Projected(QProjection),
                           BlockQueries(block))
  {
    QueryIdsAre(block);
    forall i: nat | i < |block|
      ensures QueriesApart(block[i]) && (IsQueryResidency(block[i]) <==> block[i].id in BlockQueries(block))
      ensures IsQueryResidency(block[i])
           || StaysInPlace(rs + DecodePart(block, next, layer, q, keyAppend, valueAppend), block[i], next, layer, Projected(QProjection),
                           BlockQueries(block))
    {
      BlockQueriesApart(block, Scope(1, false), i);
      if !IsQueryResidency(block[i]) {
        DecodeRecordInPlace(rs, block, next, layer, q, keyAppend, valueAppend, i);
      }
    }
  }

  lemma {:induction false} DecodeTerminalsPlaced(block: seq<Record>, next: int, layer: nat, q: int, keyAppend: int, valueAppend: int, x: int)
    requires AttentionBlock(block, Scope(1, false)) && TerminalIn(block, x)
    ensures x + next in TerminalIds(DecodePart(block, next, layer, q, keyAppend, valueAppend))
  {
    var placed := Placed(block, next, layer);
    forall i | 0 <= i < |placed| ensures AttentionShape(placed[i]) {
      ShapedAt(block, Scope(1, false), i);
      ShapePlaced(block[i], next, layer);
    }
    DedupedResults(placed, DecodeAnchors(placed, layer, q, keyAppend, valueAppend, next));
    TerminalPlaced(block, DecodePart(block, next, layer, q, keyAppend, valueAppend), next, layer, x);
  }

  /** Decode attention in its place attends with the layer's query to the cache. */
  lemma {:induction false} DecodeAttends(rs: seq<Record>, block: seq<Record>, next: int, layer: nat, q: int, keyAppend: int, valueAppend: int,
                                         parts: set<Part>)
    requires AttentionBlock(block, Scope(1, false)) && BlockAttends(block, parts) && forall p <- parts :: p.query.None?
    requires Means(rs, q, Tensor(layer, Query), Projected(QProjection)) && 0 <= q < next
    ensures var part := DecodePart(block, next, layer, q, keyAppend, valueAppend); Attends(rs + part, part, layer, parts)
  {
    var part := DecodePart(block, next, layer, q, keyAppend, valueAppend);
    DecodeInPlace(rs, block, next, layer, q, keyAppend, valueAppend);
    forall p | p in parts ensures AttendsTo(rs + part, part, layer, p) {
      assert Attended(block, 0, p);
      var end :| TerminalIn(block, end) && Holds(block, end, Tensor(0, p.EndName()), p.Attend());
      CarriedDeduped(block, rs + part, next, layer, Projected(QProjection), BlockQueries(block), end, Tensor(0, p.EndName()), p.Attend());
      PartInLayer(p, QueryWiring(Projected(QProjection)));
      DecodeTerminalsPlaced(block, next, layer, q, keyAppend, valueAppend, end);
    }
  }

  /** A read of the cache waits for the record that stores the new key or value. */
  lemma {:induction false} CacheReadWaits(block: seq<Record>, open: bool, next: int, layer: nat, q: int, keyAppend: int, valueAppend: int, i: nat,
                                           isKey: bool)
    requires AttentionBlock(block, Scope(1, open)) && i < |DecodePart(block, next, layer, q, keyAppend, valueAppend)|
    requires DecodePart(block, next, layer, q, keyAppend, valueAppend)[i].op == KvCacheTileRead(isKey)
    ensures (if isKey then keyAppend else valueAppend) in DecodePart(block, next, layer, q, keyAppend, valueAppend)[i].deps
  {
    var placed := Placed(block, next, layer);
    var a := DecodeAnchors(placed, layer, q, keyAppend, valueAppend, next);
    var j := DedupedFrom(placed, a, i);
    ShapedAt(block, Scope(1, open), j);
    var r := RelinkDecode(placed[j], a);
    assert r.deps[0] == if isKey then keyAppend else valueAppend;
  }

  // ---- reads of the cache ----

  /** Record `i` waits for the record that appends the layer's new key or value to the
      cache. */
  ghost predicate ReadAfterAppend(rs: seq<Record>, i: nat, layer: nat, isKey: bool)
    requires i < |rs|
  {
    exists j: nat, source :: j < |rs| && AppendsBefore(rs, i, j, source, layer, isKey)
  }

  ghost predicate AppendsBefore(rs: seq<Record>, i: nat, j: nat, source: int, layer: nat, isKey: bool)
    requires i < |rs| && j < |rs|
  {
    && rs[j].id in rs[i].deps && StoresAt(rs, j, layer, false, isKey, rs[j].id, source)
    && Means(rs, source, Tensor(layer, if isKey then Key else Value), Projected(if isKey then KProjection else VProjection))
  }

  /** The reads of the cache from position `start` on. */
  ghost predicate ReadsAppended(rs: seq<Record>, start: nat, layer: nat) {
    forall i: nat, isKey: bool :: start <= i < |rs| && rs[i].op == KvCacheTileRead(isKey) ==> ReadAfterAppend(rs, i, layer, isKey)
  }

  ghost predicate NoReads(rs: seq<Record>) {
    forall i :: 0 <= i < |rs| ==> !rs[i].op.KvCacheTileRead?
  }

  /** All reads of the cache in a layer. */
  ghost predicate CacheCurrent(rs: seq<Record>, layer: nat) {
    forall i: nat, isKey: bool ::
      i < |rs| && rs[i].layer == layer && rs[i].op == KvCacheTileRead(isKey) ==> ReadAfterAppend(rs, i, layer, isKey)
  }

  lemma {:induction false} AppendStored(rs: seq<Record>, before: seq<Record>, all: seq<Record>, i: nat, layer: nat, isKey: bool, write: int, source: int)
    requires rs + before <= all && i < |all| && Stores(before, layer, false, isKey, write, source) && write in all[i].deps
    requires Means(rs + before, source, Tensor(layer, if isKey then Key else Value), Projected(if isKey then KProjection else VProjection))
    ensures ReadAfterAppend(all, i, layer, isKey)
  {
    MeansMore(rs + before, all, source, Tensor(layer, if isKey then Key else Value), Projected(if isKey then KProjection else VProjection));
    var j: nat :| j < |before| && StoresAt(before, j, layer, false, isKey, write, source);
    assert (rs + before)[|rs| + j] == before[j];
    assert AppendsBefore(all, i, |rs| + j, source, layer, isKey);
  }

  /** A read of the cache is a record of the attention block. */
  lemma {:induction false} ReadIsPlaced(rs: seq<Record>, before: seq<Record>, placed: seq<Record>, rest: seq<Record>, i: nat) returns (n: nat)
    requires |rs| <= i < |rs + (before + placed + rest)| && (rs + (before + placed + rest))[i].op.KvCacheTileRead?
    requires NoReads(before) && NoReads(rest)
    ensures n < |placed| && (rs + (before + placed + rest))[i] == placed[n]
  {
    n := i - |rs| - |before|;
  }

  lemma {:induction false} DecodeReadsAppended(rs: seq<Record>, before: seq<Record>, block: seq<Record>, open: bool, placed: seq<Record>, rest: seq<Record>,
                                               next: int, layer: nat, q: int, k: int, v: int, keyWrite: int, valueWrite: int)
    requires AttentionBlock(block, Scope(1, open)) && placed == DecodePart(block, next, layer, q, keyWrite, valueWrite)
    requires NoReads(before) && NoReads(rest) && ProjectionsMean(rs + before, layer, q, k, v)
    requires Stores(before, layer, false, true, keyWrite, k) && Stores(before, layer, false, false, valueWrite, v)
    ensures ReadsAppended(rs + (before + placed + rest), |rs|, layer)
  {
    var all := rs + (before + placed + rest);
    forall i: nat, isKey: bool | |rs| <= i < |all| && all[i].op == KvCacheTileRead(isKey)
      ensures ReadAfterAppend(all, i, layer, isKey)
    {
      var n := ReadIsPlaced(rs, before, placed, rest, i);
      CacheReadWaits(block, open, next, layer, q, keyWrite, valueWrite, n, isKey);
      AppendStored(rs, before, all, i, layer, isKey, if isKey then keyWrite else valueWrite, if isKey then k else v);
    }
  }

  lemma {:induction false} ReadStays(rs: seq<Record>, more: seq<Record>, i: nat, layer: nat, isKey: bool)
    requires rs <= more && i < |rs| && ReadAfterAppend(rs, i, layer, isKey)
    ensures ReadAfterAppend(more, i, layer, isKey)
  {
    var j: nat, source :| j < |rs| && AppendsBefore(rs, i, j, source, layer, isKey);
    MeansMore(rs, more, source, Tensor(layer, if isKey then Key else Value), Projected(if isKey then KProjection else VProjection));
    assert AppendsBefore(more, i, j, source, layer, isKey);
  }

  lemma {:induction false} CacheStaysCurrent(rs: seq<Record>, part: seq<Record>, layer: nat)
    requires CacheCurrent(rs, layer) && forall i :: 0 <= i < |part| ==> part[i].layer != layer || !part[i].op.KvCacheTileRead?
    ensures CacheCurrent(rs + part, layer)
  {
    var all := rs + part;
    forall i: nat, isKey: bool | i < |all| && all[i].layer == layer && all[i].op == KvCacheTileRead(isKey)
      ensures ReadAfterAppend(all, i, layer, isKey)
    {
      assert i < |rs|;
      assert rs[i] == all[i];
      ReadStays(rs, all, i, layer, isKey);
    }
  }

  lemma {:induction false} CacheIsCurrent(rs: seq<Record>, part: seq<Record>, layer: nat)
    requires ReadsAppended(rs + part, |rs|, layer) && forall i :: 0 <= i < |rs| ==> rs[i].layer != layer
    ensures CacheCurrent(rs + part, layer)
  {
    var all := rs + part;
    forall i: nat, isKey: bool | i < |all| && all[i].layer == layer && all[i].op == KvCacheTileRead(isKey)
      ensures ReadAfterAppend(all, i, layer, isKey)
    {
    }
  }
}
