/** The list rewrites of the layer assembly: renumbering, retargeting to a layer,
    relinking dependencies and dropping duplicate query residencies; and what each
    of them leaves unchanged. */
module Relinking {
  import opened Records
  import opened Results
  import opened Sequences

  // ---- folds over records ----

  function Total(f: Record -> int, rs: seq<Record>): int
    decreases |rs|
  {
    if rs == [] then 0 else Total(f, rs[..|rs| - 1]) + f(rs[|rs| - 1])
  }

  lemma TotalAppend(f: Record -> int, rs: seq<Record>, r: Record)
    ensures Total(f, rs + [r]) == Total(f, rs) + f(r)
  {
    assert (rs + [r])[..|rs|] == rs;
  }

  lemma {:induction false} TotalConcat(f: Record -> int, a: seq<Record>, b: seq<Record>)
    ensures Total(f, a + b) == Total(f, a) + Total(f, b)
    decreases |b|
  {
    if b == [] {
      assert a + b == a;
    } else {
      var n := |b| - 1;
      assert a + b == (a + b[..n]) + [b[n]];
      TotalAppend(f, a + b[..n], b[n]);
      TotalConcat(f, a, b[..n]);
    }
  }

  lemma {:induction false} TotalSame(f: Record -> int, a: seq<Record>, b: seq<Record>)
    requires |a| == |b| && forall i :: 0 <= i < |a| ==> f(a[i]) == f(b[i])
    ensures Total(f, a) == Total(f, b)
    decreases |a|
  {
    if a != [] {
      TotalSame(f, a[..|a| - 1], b[..|a| - 1]);
    }
  }

  // ---- the records the layer assembly looks for ----

  predicate IsReduction(r: Record) {
    r.kind.PIMElementwise? && r.op.ContextReduction?
  }

  /** Routers and experts. */
  predicate OfExperts(kind: RecordKind) {
    kind.MoERouter? || kind.MoEExpertFFN?
  }

  predicate IsProjection(kind: RecordKind) {
    kind.FFNProjection? || OfExperts(kind)
  }

  predicate IsMac(r: Record) {
    IsProjection(r.kind) || r.kind.AttentionScore? || r.kind.AttentionContext?
  }

  predicate IsQueryResidency(r: Record) {
    r.kind.PIMOperandResidency? && r.op.QOperandResidency?
  }

  function ConsumedBy(r: Record): seq<int> { if IsReduction(r) then r.deps else [] }
  function ReductionId(r: Record): seq<int> { if IsReduction(r) then [r.id] else [] }
  function ContextId(r: Record): seq<int> { if r.kind.AttentionContext? then [r.id] else [] }
  function OutputDeps(r: Record): seq<int> { if r.op.OProjection? then r.deps else [] }
  function QueryId(r: Record): seq<int> { if IsQueryResidency(r) then [r.id] else [] }
  function MacRequests(r: Record): int { if IsMac(r) then r.requests else 0 }

  /** Context ids that some reduction reads. */
  function Consumed(rs: seq<Record>): seq<int> { FlatMap(ConsumedBy, rs) }
  function Reductions(rs: seq<Record>): seq<int> { FlatMap(ReductionId, rs) }
  function Contexts(rs: seq<Record>): seq<int> { FlatMap(ContextId, rs) }
  function Requests(rs: seq<Record>): int { Total(MacRequests, rs) }

  // ---- work by bucket ----

  /** What a MAC request is spent on.  The predictor has a figure for each of the first
      three; a dense trace has nothing in the last. */
  datatype Bucket = QkvoBucket | AttentionBucket | FfnBucket | ExpertBucket

  datatype Buckets = Buckets(qkvo: int, attention: int, ffn: int, experts: int) {
    function Total(): int { qkvo + attention + ffn + experts }
  }

  predicate Qkvo(op: Op) {
    op.QProjection? || op.KProjection? || op.VProjection? || op.OProjection?
  }

  function BucketOf(r: Record): Bucket {
    if r.kind.AttentionScore? || r.kind.AttentionContext? then AttentionBucket
    else if OfExperts(r.kind) then ExpertBucket
    else if Qkvo(r.op) then QkvoBucket
    else FfnBucket
  }

  function InBucket(b: Bucket): Record -> int {
    (r: Record) => if BucketOf(r) == b then MacRequests(r) else 0
  }

  function BucketTotal(b: Bucket, rs: seq<Record>): int { Total(InBucket(b), rs) }

  function WorkOf(rs: seq<Record>): Buckets {
    Buckets(BucketTotal(QkvoBucket, rs), BucketTotal(AttentionBucket, rs), BucketTotal(FfnBucket, rs),
            BucketTotal(ExpertBucket, rs))
  }

  function OnlyIn(b: Bucket, requests: int): Buckets {
    Buckets(if b == QkvoBucket then requests else 0, if b == AttentionBucket then requests else 0,
            if b == FfnBucket then requests else 0, if b == ExpertBucket then requests else 0)
  }

  /** All work of `rs` is of one kind. */
  ghost predicate Pure(rs: seq<Record>, b: Bucket) {
    forall i :: 0 <= i < |rs| && IsMac(rs[i]) ==> BucketOf(rs[i]) == b
  }

  lemma {:induction false} PureWork(rs: seq<Record>, b: Bucket)
    requires Pure(rs, b)
    ensures WorkOf(rs) == OnlyIn(b, Requests(rs))
    decreases |rs|
  {
    if rs != [] {
      PureWork(rs[..|rs| - 1], b);
    }
  }

  lemma WorkConcat(a: seq<Record>, b: seq<Record>)
    ensures var both := WorkOf(a + b);
      && both.qkvo == WorkOf(a).qkvo + WorkOf(b).qkvo
      && both.attention == WorkOf(a).attention + WorkOf(b).attention
      && both.ffn == WorkOf(a).ffn + WorkOf(b).ffn
      && both.experts == WorkOf(a).experts + WorkOf(b).experts
  {
    TotalConcat(InBucket(QkvoBucket), a, b);
    TotalConcat(InBucket(AttentionBucket), a, b);
    TotalConcat(InBucket(FfnBucket), a, b);
    TotalConcat(InBucket(ExpertBucket), a, b);
  }

  // ---- renumbering ----

  function IdMap(rs: seq<Record>, start: int): (m: map<int, int>)
    ensures forall i :: 0 <= i < |rs| ==> rs[i].id in m
    decreases |rs|
  {
    if rs == [] then map[]
    else
      var m := IdMap(rs[..|rs| - 1], start);
      assert forall i :: 0 <= i < |rs| - 1 ==> rs[..|rs| - 1][i] == rs[i];
      m[rs[|rs| - 1].id := start + |rs| - 1]
  }

  function Get(m: map<int, int>, d: int): int {
    if d in m then m[d] else d
  }

  function MapIds(r: Record, m: map<int, int>): Record {
    r.(id := Get(m, r.id), deps := seq(|r.deps|, j requires 0 <= j < |r.deps| => Get(m, r.deps[j])))
  }

  /** `_renumber_records`. */
  method Renumber(rs: seq<Record>, startId: int) returns (renumbered: seq<Record>, next: int)
    ensures next == startId + |rs|
    ensures |renumbered| == |rs|
    ensures forall i :: 0 <= i < |rs| ==> renumbered[i] == MapIds(rs[i], IdMap(rs, startId))
  {
    var idMap: map<int, int> := map[];
    for i := 0 to |rs|
      invariant idMap == IdMap(rs[..i], startId)
    {
      assert rs[..i + 1][..i] == rs[..i];
      idMap := idMap[rs[i].id := startId + i];
    }
    assert rs[..|rs|] == rs;
    renumbered := [];
    for i := 0 to |rs|
      invariant |renumbered| == i
      invariant forall k :: 0 <= k < i ==> renumbered[k] == MapIds(rs[k], idMap)
    {
      var deps := [];
      for j := 0 to |rs[i].deps|
        invariant |deps| == j
        invariant forall k :: 0 <= k < j ==> deps[k] == Get(idMap, rs[i].deps[k])
      {
        deps := deps + [if rs[i].deps[j] in idMap then idMap[rs[i].deps[j]] else rs[i].deps[j]];
      }
      var updated := rs[i].(id := idMap[rs[i].id], deps := deps);
      assert updated == MapIds(rs[i], idMap);
      renumbered := renumbered + [updated];
    }
    next := startId + |rs|;
  }

  // ---- retargeting ----

  function RetargetTensor(t: Tensor, layer: nat): Tensor {
    if t.layer == 0 then t.(layer := layer) else t
  }

  function RetargetTensors(ts: seq<Tensor>, layer: nat): seq<Tensor> {
    seq(|ts|, i requires 0 <= i < |ts| => RetargetTensor(ts[i], layer))
  }

  /** `_retarget_layer_zero_record`. */
  function Retarget(r: Record, layer: nat): Record {
    r.(layer := if r.layer == 0 then layer else r.layer,
       inputs := RetargetTensors(r.inputs, layer),
       outputs := RetargetTensors(r.outputs, layer))
  }

  // ---- both together, for a block numbered from zero ----

  ghost predicate Numbered(rs: seq<Record>) {
    forall i :: 0 <= i < |rs| ==> rs[i].id == i
  }

  function Shift(r: Record, offset: int): Record {
    r.(id := r.id + offset, deps := ShiftAll(r.deps, offset))
  }

  function ShiftAll(ids: seq<int>, offset: int): seq<int> {
    seq(|ids|, j requires 0 <= j < |ids| => ids[j] + offset)
  }

  function Placed(rs: seq<Record>, start: int, layer: nat): seq<Record> {
    seq(|rs|, i requires 0 <= i < |rs| => Retarget(Shift(rs[i], start), layer))
  }

  lemma {:induction false} NumberedIdMap(rs: seq<Record>, start: int)
    requires Numbered(rs)
    ensures forall k :: k in IdMap(rs, start) <==> 0 <= k < |rs|
    ensures forall k :: 0 <= k < |rs| ==> IdMap(rs, start)[k] == start + k
    decreases |rs|
  {
    if rs != [] {
      NumberedIdMap(rs[..|rs| - 1], start);
    }
  }

  lemma {:induction false} AfterKeys(env: Outputs, rs: seq<Record>, n: int)
    requires forall k :: k in env <==> 0 <= k < n
    requires n >= 0 && forall i :: 0 <= i < |rs| ==> rs[i].id == n + i
    ensures forall k :: k in After(env, rs) <==> 0 <= k < n + |rs|
    decreases |rs|
  {
    if rs != [] {
      AfterKeys(env[rs[0].id := rs[0].outputs], rs[1..], n + 1);
    }
  }

  /** A sound block numbered from zero depends on its own records only, so
      renumbering it shifts every id and dependency. */
  lemma RenumberShifts(rs: seq<Record>, start: int, ports: bool, i: nat)
    requires Numbered(rs) && Sound(map[], rs, ports) && i < |rs|
    ensures MapIds(rs[i], IdMap(rs, start)) == Shift(rs[i], start)
  {
    NumberedIdMap(rs, start);
    SoundAt(map[], rs, i, ports);
    AfterKeys(map[], rs[..i], 0);
    var r := rs[i];
    assert Follows(After(map[], rs[..i]), r, ports);
    forall j | 0 <= j < |r.deps| ensures Get(IdMap(rs, start), r.deps[j]) == r.deps[j] + start {
      assert r.deps[j] in r.deps;
    }
    assert MapIds(r, IdMap(rs, start)).deps == Shift(r, start).deps;
  }

  lemma RetargetFed(env: Outputs, env2: Outputs, deps: seq<int>, t: Tensor, ports: bool, start: int, layer: nat)
    requires Fed(env, deps, t, ports)
    requires forall k :: k in env ==> k + start in env2 && env2[k + start] == RetargetTensors(env[k], layer)
    ensures Fed(env2, ShiftAll(deps, start), RetargetTensor(t, layer), ports)
  {
    var u := RetargetTensor(t, layer);
    if !Leaf(t.name) && !(ports && Port(t.name)) {
      var d :| d in deps && Supplies(env, d, t);
      var j :| 0 <= j < |deps| && deps[j] == d;
      var i :| 0 <= i < |env[d]| && env[d][i] == t;
      assert ShiftAll(deps, start)[j] == d + start;
      assert env2[d + start][i] == u;
      assert Supplies(env2, d + start, u);
    }
  }

  lemma PlacedFollows(env: Outputs, env2: Outputs, r: Record, ports: bool, start: int, layer: nat)
    requires Follows(env, r, ports)
    requires forall k :: k in env ==> k + start in env2 && env2[k + start] == RetargetTensors(env[k], layer)
    requires forall k :: k in env2 ==> k < r.id + start
    ensures Follows(env2, Retarget(Shift(r, start), layer), ports)
  {
    var w := Retarget(Shift(r, start), layer);
    forall d | d in w.deps
      ensures d in env2 && (Plain(env, d - start) ==> Plain(env2, d)) && d - start in r.deps
    {
      var j :| 0 <= j < |w.deps| && w.deps[j] == d;
      assert r.deps[j] in r.deps;
      PlainRetargets(env, env2, d - start, start, layer);
    }
    forall t | t in w.inputs
      ensures Fed(env2, w.deps, t, ports)
    {
      var j :| 0 <= j < |w.inputs| && w.inputs[j] == t;
      assert r.inputs[j] in r.inputs;
      RetargetFed(env, env2, r.deps, r.inputs[j], ports, start, layer);
    }
    forall t | t in w.outputs
      ensures !Leaf(t.name)
    {
      var j :| 0 <= j < |w.outputs| && w.outputs[j] == t;
      assert r.outputs[j] in r.outputs;
    }
  }

  lemma PlainRetargets(env: Outputs, env2: Outputs, d: int, start: int, layer: nat)
    requires d in env && d + start in env2 && env2[d + start] == RetargetTensors(env[d], layer)
    ensures Plain(env, d) ==> Plain(env2, d + start)
  {
    if Plain(env, d) {
      forall t | t in env2[d + start] ensures !QueryOperand(t.name) {
        var j :| 0 <= j < |env2[d + start]| && env2[d + start][j] == t;
        assert env[d][j] in env[d];
      }
    }
  }

  /** A block that is sound on its own stays sound at its place in the trace. */
  lemma {:induction false} PlacedSound(env: Outputs, env2: Outputs, rs: seq<Record>, ports: bool, start: int, layer: nat)
    requires Sound(env, rs, ports)
    requires forall k :: k in env ==> k + start in env2 && env2[k + start] == RetargetTensors(env[k], layer)
    requires forall k :: k in env2 ==> k < start || k - start in env
    requires forall i :: 0 <= i < |rs| ==> rs[i].id >= 0
    ensures Sound(env2, Placed(rs, start, layer), ports)
    decreases |rs|
  {
    if rs != [] {
      var w := Retarget(Shift(rs[0], start), layer);
      PlacedFollows(env, env2, rs[0], ports, start, layer);
      PlacedSound(env[rs[0].id := rs[0].outputs], env2[w.id := w.outputs], rs[1..], ports, start, layer);
      assert Placed(rs, start, layer)[1..] == Placed(rs[1..], start, layer);
    }
  }

  // ---- relinking ----

  /** `w` is `r` with inputs and dependencies changed so that what is new comes from
      `env`, and no input is left open that `ports` does not allow. */
  ghost predicate Rewired(env: Outputs, r: Record, w: Record, ports: bool) {
    && w.id == r.id && w.outputs == r.outputs && w.kind == r.kind
    && (forall d :: d in w.deps ==> d in r.deps || Plain(env, d) || (r.kind.AttentionScore? && d in env))
    && (forall t :: t in w.inputs ==> Fed(env, w.deps, t, ports) || Kept(r, w, t, ports))
  }

  ghost predicate Kept(r: Record, w: Record, t: Tensor, ports: bool) {
    t in r.inputs && (ports || !Port(t.name)) && forall d :: d in r.deps ==> d in w.deps
  }

  lemma RewiredFollows(base: Outputs, env: Outputs, r: Record, w: Record, ports: bool)
    requires Follows(env, r, true) && Rewired(base, r, w, ports)
    requires forall k :: k in base ==> k in env && env[k] == base[k]
    ensures Follows(env, w, ports)
  {
    forall t | t in w.inputs
      ensures Fed(env, w.deps, t, ports)
    {
      if Kept(r, w, t, ports) {
        if !Leaf(t.name) && !(ports && Port(t.name)) {
          var d :| d in r.deps && Supplies(env, d, t);
          assert d in w.deps;
        }
      } else if !Leaf(t.name) && !(ports && Port(t.name)) {
        var d :| d in w.deps && Supplies(base, d, t);
        assert Supplies(env, d, t);
      }
    }
    forall d | d in w.deps
      ensures d in env && (w.kind.AttentionScore? || Plain(env, d))
    {
    }
  }

  lemma {:induction false} RewiredSound(base: Outputs, env: Outputs, rs: seq<Record>, ws: seq<Record>, ports: bool)
    requires Sound(env, rs, true) && |ws| == |rs|
    requires forall k :: k in base ==> k in env && env[k] == base[k]
    requires forall i :: 0 <= i < |rs| ==> Rewired(base, rs[i], ws[i], ports)
    ensures Sound(env, ws, ports)
    ensures After(env, ws) == After(env, rs)
    decreases |rs|
  {
    if rs != [] {
      RewiredFollows(base, env, rs[0], ws[0], ports);
      RewiredSound(base, env[rs[0].id := rs[0].outputs], rs[1..], ws[1..], ports);
    }
  }

  // ---- dropping duplicate query residencies ----

  /** Ids a score keeps or gains when its head's query residency is replaced. */
  function ScoreDeps(deps: seq<int>, queries: seq<int>, canonical: seq<int>): (r: seq<int>)
    ensures forall d :: d in r <==> d in canonical || (d in deps && d !in queries)
    decreases |deps|
  {
    if deps == [] then canonical
    else
      var last := deps[|deps| - 1];
      var rest := ScoreDeps(deps[..|deps| - 1], queries, canonical);
      assert deps == deps[..|deps| - 1] + [last];
      if last !in queries && last !in canonical then rest + [last] else rest
  }

  /** The identifiers the decode assembly reads off the blocks before attention. */
  datatype Anchors = Anchors(layer: nat, query: int, keyAppend: int, valueAppend: int, keep: Option<int>, queries: seq<int>) {
    function Canonical(): seq<int> {
      [query] + (if keep.Some? then [keep.value] else [])
    }

    function GlobalQuery(): Tensor { Tensor(layer, Visible(Query)) }
  }

  /** One pass of the loop that follows a decode attention block. */
  function RelinkDecode(r: Record, a: Anchors): Record {
    if r.kind.AttentionScore? then
      r.(inputs := if |r.inputs| > 0 then r.inputs[0 := a.GlobalQuery()] else [],
         deps := ScoreDeps(r.deps, a.queries, a.Canonical()))
    else if IsQueryResidency(r) then
      if a.keep == Some(r.id) then
        r.(inputs := [Tensor(a.layer, Query)], outputs := [a.GlobalQuery()], deps := [a.query])
      else r
    else if r.op == KvCacheTileRead(true) then r.(deps := [a.keyAppend])
    else if r.op == KvCacheTileRead(false) then r.(deps := [a.valueAppend] + r.deps)
    else r
  }

  predicate Dropped(r: Record, a: Anchors) {
    IsQueryResidency(r) && a.keep != Some(r.id)
  }

  /** The relinked records without the duplicate query residencies. */
  function Deduped(rs: seq<Record>, a: Anchors): seq<Record>
    decreases |rs|
  {
    if rs == [] then []
    else (if Dropped(rs[0], a) then [] else [RelinkDecode(rs[0], a)]) + Deduped(rs[1..], a)
  }

  ghost predicate QueryOnly(outputs: seq<Tensor>) {
    |outputs| > 0 && forall t :: t in outputs ==> QueryOperand(t.name)
  }

  /** What every attention record looks like after its generator is done. */
  ghost predicate AttentionShape(r: Record) {
    && (if IsQueryResidency(r) then QueryOnly(r.outputs) else forall t :: t in r.outputs ==> !QueryOperand(t.name))
    && (!IsQueryResidency(r) && !r.op.PrefillTileResidency? ==> forall t :: t in r.inputs ==> !Port(t.name))
    && (r.kind.AttentionScore? ==>
          |r.inputs| >= 1 && !r.op.PrefillTileResidency? && QueryOperand(r.inputs[0].name)
          && forall i :: 1 <= i < |r.inputs| ==> !QueryOperand(r.inputs[i].name))
    && (r.op.KvCacheTileRead? ==> r.kind.HostRead? && forall t :: t in r.inputs ==> Leaf(t.name))
    && (r.op.PrefillTileResidency? || r.op.QOperandResidency? ==> r.kind.PIMOperandResidency? && r.deps == [])
    && (r.op == KvCacheTileRead(true) ==> r.deps == [])
    && !r.op.OProjection? && !IsProjection(r.kind)
  }

  /** `after` is what has been emitted when `before` would have been, without the
      duplicate query residencies. */
  ghost predicate Tracks(before: Outputs, after: Outputs, a: Anchors) {
    && (forall k :: k in after ==> k in before)
    && (forall k :: k in before && k !in a.queries ==> k in after && after[k] == before[k])
    && (forall k :: k in before && k in a.queries ==> QueryOnly(before[k]))
  }

  ghost predicate Anchored(after: Outputs, a: Anchors) {
    && Plain(after, a.query) && Plain(after, a.keyAppend) && Plain(after, a.valueAppend)
    && a.keep.Some? && a.keep.value in a.queries && a.keep.value in after
    && Supplies(after, a.keep.value, a.GlobalQuery())
  }

  lemma QueriesNotPlain(before: Outputs, after: Outputs, a: Anchors)
    requires Tracks(before, after, a)
    ensures forall k :: k in before && k in a.queries ==> !Plain(before, k)
  {
    forall k | k in before && k in a.queries
      ensures !Plain(before, k)
    {
      assert before[k][0] in before[k];
    }
  }

  lemma PlainTracks(before: Outputs, after: Outputs, a: Anchors, d: int)
    requires Tracks(before, after, a) && Plain(before, d)
    ensures d !in a.queries && Plain(after, d)
  {
    QueriesNotPlain(before, after, a);
  }

  lemma FedTracks(before: Outputs, after: Outputs, a: Anchors, deps: seq<int>, deps2: seq<int>, t: Tensor, ports: bool)
    requires Tracks(before, after, a) && Fed(before, deps, t, true)
    requires !QueryOperand(t.name) && (ports || !Port(t.name))
    requires forall d :: d in deps && d !in a.queries ==> d in deps2
    ensures Fed(after, deps2, t, ports)
  {
    if !Leaf(t.name) && !(ports && Port(t.name)) {
      var d :| d in deps && Supplies(before, d, t);
      assert d in a.queries ==> QueryOnly(before[d]);
      assert Supplies(after, d, t);
    }
  }

  lemma ScoreRelinks(before: Outputs, after: Outputs, r: Record, a: Anchors, ports: bool)
    requires Follows(before, r, true) && AttentionShape(r) && r.kind.AttentionScore?
    requires Tracks(before, after, a) && Anchored(after, a)
    ensures Follows(after, RelinkDecode(r, a), ports)
  {
    var w := RelinkDecode(r, a);
    assert a.keep.value in w.deps;
    forall t | t in w.inputs
      ensures Fed(after, w.deps, t, ports)
    {
      var i :| 0 <= i < |w.inputs| && w.inputs[i] == t;
      if i == 0 {
        assert Supplies(after, a.keep.value, t);
      } else {
        assert r.inputs[i] in r.inputs;
        FedTracks(before, after, a, r.deps, w.deps, t, ports);
      }
    }
  }

  lemma PlainInputs(before: Outputs, r: Record, t: Tensor)
    requires Follows(before, r, true) && !r.kind.AttentionScore? && t in r.inputs
    ensures !QueryOperand(t.name)
  {
    assert Fed(before, r.deps, t, true);
    assert forall d :: d in r.deps && Supplies(before, d, t) ==> Plain(before, d);
  }

  lemma OtherRelinks(before: Outputs, after: Outputs, r: Record, a: Anchors, ports: bool)
    requires Follows(before, r, true) && AttentionShape(r)
    requires !r.kind.AttentionScore? && !IsQueryResidency(r)
    requires ports || !r.op.PrefillTileResidency?
    requires Tracks(before, after, a) && Anchored(after, a)
    ensures Follows(after, RelinkDecode(r, a), ports)
  {
    var w := RelinkDecode(r, a);
    forall d | d in r.deps
      ensures d !in a.queries && Plain(after, d)
    {
      PlainTracks(before, after, a, d);
    }
    forall t | t in w.inputs
      ensures Fed(after, w.deps, t, ports)
    {
      PlainInputs(before, r, t);
      if !r.op.KvCacheTileRead? {
        FedTracks(before, after, a, r.deps, w.deps, t, ports);
      }
    }
  }

  /** The relinked and deduplicated rest of an attention block is sound once the
      canonical query residency is in place. */
  lemma {:induction false} DedupedSound(before: Outputs, after: Outputs, rs: seq<Record>, a: Anchors, ports: bool)
    requires Sound(before, rs, true)
    requires forall i :: 0 <= i < |rs| ==> AttentionShape(rs[i])
    requires forall i :: 0 <= i < |rs| ==> (IsQueryResidency(rs[i]) <==> rs[i].id in a.queries)
    requires forall i :: 0 <= i < |rs| ==> a.keep != Some(rs[i].id)
    requires ports || forall i :: 0 <= i < |rs| ==> !rs[i].op.PrefillTileResidency?
    requires Tracks(before, after, a) && Anchored(after, a)
    ensures Sound(after, Deduped(rs, a), ports)
    decreases |rs|
  {
    if rs != [] {
      var r := rs[0];
      var next := before[r.id := r.outputs];
      if Dropped(r, a) {
        DedupedSound(next, after, rs[1..], a, ports);
        assert Deduped(rs, a) == Deduped(rs[1..], a);
      } else {
        var w := RelinkDecode(r, a);
        RelinkFollows(before, after, r, a, ports);
        StillAnchored(before, after, r, a);
        DedupedSound(next, after[w.id := w.outputs], rs[1..], a, ports);
        assert Deduped(rs, a)[1..] == Deduped(rs[1..], a);
      }
    }
  }

  lemma RelinkFollows(before: Outputs, after: Outputs, r: Record, a: Anchors, ports: bool)
    requires Follows(before, r, true) && AttentionShape(r) && !IsQueryResidency(r)
    requires ports || !r.op.PrefillTileResidency?
    requires Tracks(before, after, a) && Anchored(after, a)
    ensures Follows(after, RelinkDecode(r, a), ports)
    ensures RelinkDecode(r, a).id == r.id && RelinkDecode(r, a).outputs == r.outputs
  {
    if r.kind.AttentionScore? {
      ScoreRelinks(before, after, r, a, ports);
    } else {
      OtherRelinks(before, after, r, a, ports);
    }
  }

  lemma StillAnchored(before: Outputs, after: Outputs, r: Record, a: Anchors)
    requires Tracks(before, after, a) && Anchored(after, a)
    requires forall k :: k in before ==> k < r.id
    ensures Anchored(after[r.id := r.outputs], a)
  {
  }
}
