/** The score phase of a decode head: query residency, key-tile reads, scores, and the
    pass that relinks the scores to the resident query. */
module DecodeScores {
  import opened Attention
  import opened CausalTiling
  import opened DataFlow
  import opened Manifests
  import opened Records
  import opened Relinking
  import opened Results
  import opened Sequences

  function KeyRead(id: int, layer: nat, head: nat, tile: nat): Record {
    Record(id, HostRead, layer, KvCacheTileRead(true), [Tensor(layer, CacheTile(head, tile, true))],
           [Tensor(layer, Resident(CacheTile(head, tile, true)))], [], 1)
  }

  function Score(id: int, layer: nat, head: nat, tile: nat, query: Name, deps: seq<int>, requests: int): Record {
    Record(id, AttentionScore, layer, ScoreOp,
           [Tensor(layer, query), Tensor(layer, Resident(CacheTile(head, tile, true)))],
           [Tensor(layer, ScorePart(head, None, tile))], deps, requests)
  }

  /** What the score loop appends from record id `start` on: a key-tile read and a
      score that reads the head's query, for each tile. */
  function Scores(start: int, layer: nat, head: nat, work: seq<int>): seq<Record>
    decreases |work|
  {
    if work == [] then []
    else
      var n := |work| - 1;
      var id := start + 2 * n;
      Scores(start, layer, head, work[..n])
      + [KeyRead(id, layer, head, n), Score(id + 1, layer, head, n, HeadQuery(head), [id], work[n])]
  }

  /** The same records after the scores are relinked to the query's residency. */
  function LinkedScores(start: int, layer: nat, head: nat, work: seq<int>, residency: int): seq<Record>
    decreases |work|
  {
    if work == [] then []
    else
      var n := |work| - 1;
      var id := start + 2 * n;
      LinkedScores(start, layer, head, work[..n], residency)
      + [KeyRead(id, layer, head, n), Score(id + 1, layer, head, n, Visible(HeadQuery(head)), [residency, id], work[n])]
  }

  function TileWork(tiles: seq<Range>, m: AttentionManifest): seq<int> {
    seq(|tiles|, i requires 0 <= i < |tiles| => NumRequests(tiles[i].size * m.headDim, m.datatyp))
  }

  /** `_append_attention_score_records`. */
  method AppendScores(records: seq<Record>, layer: nat, head: nat, work: seq<int>)
      returns (extended: seq<Record>, ids: seq<int>)
    ensures extended == records + Scores(|records|, layer, head, work)
    ensures |ids| == |work| && forall j :: 0 <= j < |ids| ==> ids[j] == |records| + 2 * j + 1
  {
    extended, ids := records, [];
    assert records + Scores(|records|, layer, head, work[..0]) == records;
    for tile := 0 to |work|
      invariant extended == records + Scores(|records|, layer, head, work[..tile])
      invariant |extended| == |records| + 2 * tile
      invariant |ids| == tile && forall j :: 0 <= j < tile ==> ids[j] == |records| + 2 * j + 1
    {
      var nextId := |extended|;
      assert work[..tile + 1][..tile] == work[..tile];
      extended := extended + [KeyRead(nextId, layer, head, tile)];
      extended := extended + [Score(nextId + 1, layer, head, tile, HeadQuery(head), [nextId], work[tile])];
      ids := ids + [nextId + 1];
    }
    assert work[..|work|] == work;
  }

  function Relink(r: Record, ids: seq<int>, query: Tensor, resident: Tensor, residency: int): Record {
    if r.id in ids then
      r.(inputs := seq(|r.inputs|, j requires 0 <= j < |r.inputs| => if r.inputs[j] == query then resident else r.inputs[j]),
         deps := if residency in r.deps then r.deps else [residency] + r.deps)
    else r
  }

  /** The loop that makes a head's scores read the resident query. */
  method RelinkScores(records: seq<Record>, ids: seq<int>, query: Tensor, resident: Tensor, residency: int)
      returns (relinked: seq<Record>)
    ensures |relinked| == |records|
    ensures forall i :: 0 <= i < |records| ==> relinked[i] == Relink(records[i], ids, query, resident, residency)
  {
    relinked := [];
    for i := 0 to |records|
      invariant |relinked| == i
      invariant forall k :: 0 <= k < i ==> relinked[k] == Relink(records[k], ids, query, resident, residency)
    {
      relinked := relinked + [Relink(records[i], ids, query, resident, residency)];
    }
  }

  lemma {:induction false} PairRelinks(id: int, layer: nat, head: nat, tile: nat, requests: int, residency: int, ids: seq<int>)
    requires residency < id && id !in ids && id + 1 in ids
    ensures Relink(KeyRead(id, layer, head, tile), ids, Tensor(layer, HeadQuery(head)), Tensor(layer, Visible(HeadQuery(head))), residency)
         == KeyRead(id, layer, head, tile)
    ensures Relink(Score(id + 1, layer, head, tile, HeadQuery(head), [id], requests), ids,
                   Tensor(layer, HeadQuery(head)), Tensor(layer, Visible(HeadQuery(head))), residency)
         == Score(id + 1, layer, head, tile, Visible(HeadQuery(head)), [residency, id], requests)
  {
    var raw := Score(id + 1, layer, head, tile, HeadQuery(head), [id], requests);
    var linked := Score(id + 1, layer, head, tile, Visible(HeadQuery(head)), [residency, id], requests);
    assert Relink(raw, ids, Tensor(layer, HeadQuery(head)), Tensor(layer, Visible(HeadQuery(head))), residency).inputs == linked.inputs;
  }

  ghost predicate ScoreIds(ids: seq<int>, start: int, n: nat) {
    && (forall k :: 0 <= k < n ==> start + 2 * k !in ids)
    && (forall k :: 0 <= k < n ==> start + 2 * k + 1 in ids)
  }

  lemma {:induction false} ScoresRelink(start: int, layer: nat, head: nat, work: seq<int>, residency: int, ids: seq<int>)
    requires residency < start && ScoreIds(ids, start, |work|)
    ensures |Scores(start, layer, head, work)| == |LinkedScores(start, layer, head, work, residency)| == 2 * |work|
    ensures forall i :: 0 <= i < 2 * |work| ==>
      Relink(Scores(start, layer, head, work)[i], ids, Tensor(layer, HeadQuery(head)), Tensor(layer, Visible(HeadQuery(head))), residency)
      == LinkedScores(start, layer, head, work, residency)[i]
    decreases |work|
  {
    if work != [] {
      var n := |work| - 1;
      ScoresRelink(start, layer, head, work[..n], residency, ids);
      PairRelinks(start + 2 * n, layer, head, n, work[n], residency, ids);
    }
  }

  function KeyTile(layer: nat, head: nat, tile: nat): Tensor {
    Tensor(layer, Resident(CacheTile(head, tile, true)))
  }

  function ResidentQuery(layer: nat, head: nat): Tensor {
    Tensor(layer, Visible(HeadQuery(head)))
  }

  function TileScore(layer: nat, head: nat, tile: nat): Tensor {
    Tensor(layer, ScorePart(head, None, tile))
  }

  function QueryMath(head: nat): Math {
    Computed(QOperandResidency, [Given(HeadQuery(head))])
  }

  /** The score of a cached key tile. */
  function TileMath(head: nat, tile: nat): Math {
    ScoreMath(QueryMath(head), Given(CacheTile(head, tile, true)))
  }

  lemma {:induction false} AddKeyRead(rs: seq<Record>, out: seq<Record>, layer: nat, head: nat, tile: nat, scope: Scope)
    requires AttentionBlock(rs, scope) && rs != [] && layer < scope.layers
    requires out == rs + [KeyRead(|rs|, layer, head, tile)]
    ensures Continued(rs, out, scope) && SameWork(rs, out)
    ensures HoldsQuery(out, |rs|, KeyTile(layer, head, tile), Given(CacheTile(head, tile, true)))
    ensures Leaves(rs, out, {}, {(|rs|, KeyTile(layer, head, tile))})
  {
    var r := KeyRead(|rs|, layer, head, tile);
    KeyReadFits(rs, r, layer, head, tile);
    KeyReadExtends(rs, r, layer, head, tile, [Given(CacheTile(head, tile, true))], scope);
    SpareSnoc(rs, r, {}, {(|rs|, KeyTile(layer, head, tile))});
  }

  lemma {:induction false} KeyReadFits(rs: seq<Record>, r: Record, layer: nat, head: nat, tile: nat)
    requires Block(rs) && r == KeyRead(|rs|, layer, head, tile)
    ensures Follows(Env(rs), r, true) && AttentionShape(r) && OwnLayer(r)
  {
    assert r.outputs[0] == KeyTile(layer, head, tile) && r.inputs[0] == Tensor(layer, CacheTile(head, tile, true));
  }

  lemma {:induction false} KeyReadExtends(rs: seq<Record>, r: Record, layer: nat, head: nat, tile: nat, args: seq<Math>, scope: Scope)
    requires AttentionBlock(rs, scope) && rs != [] && layer < scope.layers && r == KeyRead(|rs|, layer, head, tile)
    requires Follows(Env(rs), r, true) && AttentionShape(r) && OwnLayer(r) && args == [Given(CacheTile(head, tile, true))]
    ensures Continued(rs, rs + [r], scope) && SameWork(rs, rs + [r])
    ensures HoldsQuery(rs + [r], |rs|, KeyTile(layer, head, tile), args[0])
  {
    AddPlain(rs, r, args, scope);
  }

  lemma {:induction false} ScoreReads(rs: seq<Record>, s: Record, layer: nat, head: nat, tile: nat, residency: int, read: int)
    requires Block(rs) && s == Score(|rs|, layer, head, tile, Visible(HeadQuery(head)), [residency, read], s.requests)
    requires HoldsQuery(rs, residency, ResidentQuery(layer, head), QueryMath(head))
    requires HoldsQuery(rs, read, KeyTile(layer, head, tile), Given(CacheTile(head, tile, true)))
    ensures Finds(rs, s.id, s.deps, s.inputs[0], QueryMath(head))
    ensures Finds(rs, s.id, s.deps, s.inputs[1], Given(CacheTile(head, tile, true)))
    ensures Takes(s, (residency, ResidentQuery(layer, head))) && Takes(s, (read, KeyTile(layer, head, tile)))
  {
    assert residency in s.deps && read in s.deps;
    assert s.inputs[0] in s.inputs && s.inputs[1] in s.inputs;
  }

  lemma {:induction false} ScoreFits(rs: seq<Record>, s: Record, layer: nat, head: nat, tile: nat, residency: int, read: int)
    requires Block(rs) && s == Score(|rs|, layer, head, tile, Visible(HeadQuery(head)), [residency, read], s.requests)
    requires HasQuery(rs, residency, ResidentQuery(layer, head)) && HasQuery(rs, read, KeyTile(layer, head, tile))
    ensures Follows(Env(rs), s, true) && AttentionShape(s) && OwnLayer(s)
  {
    assert residency in s.deps && read in s.deps;
    forall t | t in s.inputs
      ensures Fed(Env(rs), s.deps, t, true)
    {
      assert Supplies(Env(rs), residency, t) || Supplies(Env(rs), read, t);
    }
    assert s.outputs[0] in s.outputs;
  }

  lemma {:induction false} ScoreLeaves(rs: seq<Record>, s: Record, layer: nat, head: nat, tile: nat, residency: int, read: int)
    requires s == Score(|rs|, layer, head, tile, Visible(HeadQuery(head)), [residency, read], s.requests)
    requires Takes(s, (residency, ResidentQuery(layer, head))) && Takes(s, (read, KeyTile(layer, head, tile)))
    ensures Leaves(rs, rs + [s], {(residency, ResidentQuery(layer, head)), (read, KeyTile(layer, head, tile))}, {(|rs|, TileScore(layer, head, tile))})
  {
    SpareSnoc(rs, s, {(residency, ResidentQuery(layer, head)), (read, KeyTile(layer, head, tile))}, {(|rs|, TileScore(layer, head, tile))});
  }

  lemma {:induction false} ScoreExtends(rs: seq<Record>, s: Record, layer: nat, head: nat, tile: nat, residency: int, read: int, args: seq<Math>, scope: Scope)
    requires AttentionBlock(rs, scope) && rs != [] && layer < scope.layers
    requires s == Score(|rs|, layer, head, tile, Visible(HeadQuery(head)), [residency, read], s.requests)
    requires Follows(Env(rs), s, true) && AttentionShape(s) && OwnLayer(s)
    requires |args| == 2 && Finds(rs, s.id, s.deps, s.inputs[0], args[0]) && Finds(rs, s.id, s.deps, s.inputs[1], args[1])
    ensures Continued(rs, rs + [s], scope)
    ensures Requests(rs + [s]) == Requests(rs) + s.requests && SameResults(rs, rs + [s])
    ensures Holds(rs + [s], |rs|, TileScore(layer, head, tile), Computed(ScoreOp, args))
  {
    forall j: nat | j < |args|
      ensures Finds(rs, s.id, s.deps, s.inputs[j], args[j])
    {
    }
    AddPlain(rs, s, args, scope);
  }

  lemma {:induction false} AddScore(rs: seq<Record>, s: Record, layer: nat, head: nat, tile: nat, residency: int, read: int, scope: Scope)
    requires AttentionBlock(rs, scope) && rs != [] && layer < scope.layers
    requires s == Score(|rs|, layer, head, tile, Visible(HeadQuery(head)), [residency, read], s.requests)
    requires HoldsQuery(rs, residency, ResidentQuery(layer, head), QueryMath(head))
    requires HoldsQuery(rs, read, KeyTile(layer, head, tile), Given(CacheTile(head, tile, true)))
    ensures Continued(rs, rs + [s], scope)
    ensures Requests(rs + [s]) == Requests(rs) + s.requests && SameResults(rs, rs + [s])
    ensures Holds(rs + [s], |rs|, TileScore(layer, head, tile), TileMath(head, tile))
    ensures Leaves(rs, rs + [s], {(residency, ResidentQuery(layer, head)), (read, KeyTile(layer, head, tile))}, {(|rs|, TileScore(layer, head, tile))})
  {
    ScoreFits(rs, s, layer, head, tile, residency, read);
    ScoreReads(rs, s, layer, head, tile, residency, read);
    ScoreExtends(rs, s, layer, head, tile, residency, read, [QueryMath(head), Given(CacheTile(head, tile, true))], scope);
    ScoreLeaves(rs, s, layer, head, tile, residency, read);
  }

  ghost predicate SuppliesScores(rs: seq<Record>, start: int, layer: nat, head: nat, n: nat) {
    forall j: nat :: j < n ==> Holds(rs, start + 2 * j + 1, TileScore(layer, head, j), TileMath(head, j))
  }

  /** The first `n` scores, appended from record `start` on. */
  ghost function ScoreProducts(start: int, layer: nat, head: nat, n: nat): set<Product> {
    set j: nat | j < n :: (start + 2 * j + 1, TileScore(layer, head, j))
  }

  /** `out` adds to `rs` the first scores of a head and nothing that ends its results. */
  ghost predicate ScoresAdded(rs: seq<Record>, out: seq<Record>, layer: nat, head: nat, work: seq<int>, residency: int, scope: Scope) {
    && |out| == |rs| + 2 * |work|
    && AttentionBlock(out, scope) && (rs != [] ==> Continued(rs, out, scope))
    && Requests(out) == Requests(rs) + Sum(work) && SameResults(rs, out)
    && SuppliesScores(out, |rs|, layer, head, |work|)
    && Leaves(rs, out, if work == [] then {} else {(residency, ResidentQuery(layer, head))}, ScoreProducts(|rs|, layer, head, |work|))
  }

  /** One key read and the score that reads it. */
  ghost predicate PairAdded(rs: seq<Record>, out: seq<Record>, layer: nat, head: nat, tile: nat, requests: int, residency: int, scope: Scope) {
    && |out| == |rs| + 2 && Continued(rs, out, scope)
    && Requests(out) == Requests(rs) + requests && SameResults(rs, out)
    && Holds(out, |rs| + 1, TileScore(layer, head, tile), TileMath(head, tile))
    && Leaves(rs, out, {(residency, ResidentQuery(layer, head))}, {(|rs| + 1, TileScore(layer, head, tile))})
  }

  lemma {:induction false} PairJoins(rs: seq<Record>, read: seq<Record>, out: seq<Record>, layer: nat, head: nat, tile: nat, requests: int, residency: int, scope: Scope)
    requires |read| == |rs| + 1 && |out| == |rs| + 2 && Continued(rs, read, scope) && Continued(read, out, scope)
    requires Requests(out) == Requests(rs) + requests && SameResults(rs, read) && SameResults(read, out)
    requires Holds(out, |rs| + 1, TileScore(layer, head, tile), TileMath(head, tile))
    requires Leaves(rs, read, {}, {(|rs|, KeyTile(layer, head, tile))})
    requires Leaves(read, out, {(residency, ResidentQuery(layer, head)), (|rs|, KeyTile(layer, head, tile))}, {(|rs| + 1, TileScore(layer, head, tile))})
    ensures PairAdded(rs, out, layer, head, tile, requests, residency, scope)
  {
    ContinuedThrough(rs, read, out, scope);
  }

  lemma {:induction false} AddPair(rs: seq<Record>, out: seq<Record>, layer: nat, head: nat, tile: nat, requests: int, residency: int, scope: Scope)
    requires AttentionBlock(rs, scope) && rs != [] && layer < scope.layers
    requires HoldsQuery(rs, residency, ResidentQuery(layer, head), QueryMath(head))
    requires out == rs + [KeyRead(|rs|, layer, head, tile)]
      + [Score(|rs| + 1, layer, head, tile, Visible(HeadQuery(head)), [residency, |rs|], requests)]
    ensures PairAdded(rs, out, layer, head, tile, requests, residency, scope)
  {
    var read := rs + [KeyRead(|rs|, layer, head, tile)];
    AddKeyRead(rs, read, layer, head, tile, scope);
    var s := Score(|rs| + 1, layer, head, tile, Visible(HeadQuery(head)), [residency, |rs|], requests);
    AddScore(read, s, layer, head, tile, residency, |rs|, scope);
    PairJoins(rs, read, out, layer, head, tile, requests, residency, scope);
  }

  lemma {:induction false} MoreScores(init: seq<Record>, out: seq<Record>, start: int, layer: nat, head: nat, n: nat)
    requires SuppliesScores(init, start, layer, head, n) && KeepsValues(init, out)
    requires Holds(out, start + 2 * n + 1, TileScore(layer, head, n), TileMath(head, n))
    ensures SuppliesScores(out, start, layer, head, n + 1)
  {
    forall j: nat | j < n + 1
      ensures Holds(out, start + 2 * j + 1, TileScore(layer, head, j), TileMath(head, j))
    {
      assert j < n ==> Holds(init, start + 2 * j + 1, TileScore(layer, head, j), TileMath(head, j));
    }
  }

  lemma {:induction false} ScoresAddedStep(rs: seq<Record>, init: seq<Record>, out: seq<Record>, layer: nat, head: nat, before: seq<int>, last: int,
                        work: seq<int>, residency: int, scope: Scope)
    requires work == before + [last]
    requires rs != [] && layer < scope.layers && ScoresAdded(rs, init, layer, head, before, residency, scope)
    requires HoldsQuery(rs, residency, ResidentQuery(layer, head), QueryMath(head))
    requires out == init + [KeyRead(|init|, layer, head, |before|)]
      + [Score(|init| + 1, layer, head, |before|, Visible(HeadQuery(head)), [residency, |init|], last)]
    ensures ScoresAdded(rs, out, layer, head, work, residency, scope)
  {
    assert HoldsQuery(init, residency, ResidentQuery(layer, head), QueryMath(head));
    AddPair(init, out, layer, head, |before|, last, residency, scope);
    OneMoreScore(rs, init, out, layer, head, before, last, residency, scope);
  }

  lemma {:induction false} OneMoreScore(rs: seq<Record>, init: seq<Record>, out: seq<Record>, layer: nat, head: nat, before: seq<int>, last: int, residency: int,
                     scope: Scope)
    requires rs != [] && ScoresAdded(rs, init, layer, head, before, residency, scope)
    requires PairAdded(init, out, layer, head, |before|, last, residency, scope)
    ensures ScoresAdded(rs, out, layer, head, before + [last], residency, scope)
  {
    ContinuedThrough(rs, init, out, scope);
    MoreScores(init, out, |rs|, layer, head, |before|);
    MoreScoresLeft(rs, init, out, layer, head, |before|, residency);
    SumAppend(before, last);
  }

  lemma {:induction false} MoreScoresLeft(rs: seq<Record>, init: seq<Record>, out: seq<Record>, layer: nat, head: nat, n: nat, residency: int)
    requires Leaves(rs, init, if n == 0 then {} else {(residency, ResidentQuery(layer, head))}, ScoreProducts(|rs|, layer, head, n))
    requires |init| == |rs| + 2 * n
    requires Leaves(init, out, {(residency, ResidentQuery(layer, head))}, {(|init| + 1, TileScore(layer, head, n))})
    ensures Leaves(rs, out, {(residency, ResidentQuery(layer, head))}, ScoreProducts(|rs|, layer, head, n + 1))
  {
    assert (|init| + 1, TileScore(layer, head, n)) in ScoreProducts(|rs|, layer, head, n + 1);
    forall p | p in ScoreProducts(|rs|, layer, head, n) ensures p in ScoreProducts(|rs|, layer, head, n + 1) {
      var j: nat :| j < n && p == (|rs| + 2 * j + 1, TileScore(layer, head, j));
    }
  }

  /** The linked scores extend the block, and add their requests to the work. */
  lemma {:induction false} LinkedScoresExtend(rs: seq<Record>, out: seq<Record>, layer: nat, head: nat, work: seq<int>, residency: int,
                                             scope: Scope)
    requires AttentionBlock(rs, scope) && rs != [] && layer < scope.layers
    requires HoldsQuery(rs, residency, ResidentQuery(layer, head), QueryMath(head))
    requires out == rs + LinkedScores(|rs|, layer, head, work, residency)
    ensures ScoresAdded(rs, out, layer, head, work, residency, scope)
    decreases |work|
  {
    if work == [] {
      NoScores(rs, layer, head, residency, scope);
      assert out == rs;
    } else {
      var n := |work| - 1;
      var before, init := work[..n], rs + LinkedScores(|rs|, layer, head, work[..n], residency);
      LinkedScoresExtend(rs, init, layer, head, before, residency, scope);
      LinkedScoresSnoc(rs, init, out, layer, head, work, residency);
      assert work == before + [work[n]];
      ScoresAddedStep(rs, init, out, layer, head, before, work[n], work, residency, scope);
    }
  }

  lemma {:induction false} LinkedScoresSnoc(rs: seq<Record>, init: seq<Record>, out: seq<Record>, layer: nat, head: nat, work: seq<int>, residency: int)
    requires work != [] && out == rs + LinkedScores(|rs|, layer, head, work, residency)
    requires init == rs + LinkedScores(|rs|, layer, head, work[..|work| - 1], residency) && |init| == |rs| + 2 * (|work| - 1)
    ensures var n := |work| - 1;
      out == init + [KeyRead(|init|, layer, head, n)]
             + [Score(|init| + 1, layer, head, n, Visible(HeadQuery(head)), [residency, |init|], work[n])]
  {
  }

  lemma {:induction false} NoScores(rs: seq<Record>, layer: nat, head: nat, residency: int, scope: Scope)
    requires AttentionBlock(rs, scope)
    ensures ScoresAdded(rs, rs, layer, head, [], residency, scope)
  {
  }

  lemma {:induction false} EarlierRecordsKept(before: seq<Record>, after: seq<Record>, relinked: seq<Record>, layer: nat, head: nat,
                           work: seq<int>, residency: int, ids: seq<int>)
    requires Numbered(before) && residency < |before|
    requires after == before + Scores(|before|, layer, head, work)
    requires |ids| == |work| && forall j :: 0 <= j < |ids| ==> ids[j] == |before| + 2 * j + 1
    requires |relinked| == |after| && forall i :: 0 <= i < |after| ==>
      relinked[i] == Relink(after[i], ids, Tensor(layer, HeadQuery(head)), Tensor(layer, Visible(HeadQuery(head))), residency)
    ensures relinked == before + LinkedScores(|before|, layer, head, work, residency)
  {
    forall k | 0 <= k < |work|
      ensures |before| + 2 * k !in ids && |before| + 2 * k + 1 in ids
    {
      assert ids[k] == |before| + 2 * k + 1;
    }
    ScoresRelink(|before|, layer, head, work, residency, ids);
    var linked := before + LinkedScores(|before|, layer, head, work, residency);
    assert |linked| == |relinked|;
    forall i | 0 <= i < |relinked|
      ensures relinked[i] == linked[i]
    {
      if i < |before| {
        assert after[i] == before[i];
      } else {
        assert after[i] == Scores(|before|, layer, head, work)[i - |before|];
      }
    }
  }

  /** The scores of one head, linked to its query residency. */
  method LinkedHeadScores(records: seq<Record>, layer: nat, head: nat, work: seq<int>, residency: int, ghost scope: Scope)
      returns (extended: seq<Record>, ids: seq<int>)
    requires AttentionBlock(records, scope) && layer < scope.layers && 0 <= residency < |records|
    ensures extended == records + LinkedScores(|records|, layer, head, work, residency)
    ensures |ids| == |work| && forall j :: 0 <= j < |ids| ==> ids[j] == |records| + 2 * j + 1
  {
    var scored;
    scored, ids := AppendScores(records, layer, head, work);
    extended := RelinkScores(scored, ids, Tensor(layer, HeadQuery(head)), Tensor(layer, Visible(HeadQuery(head))), residency);
    EarlierRecordsKept(records, scored, extended, layer, head, work, residency, ids);
  }

  /** A head's scores, which nothing has read yet. */
  ghost predicate HeadScored(records: seq<Record>, extended: seq<Record>, ids: seq<int>, layer: nat, head: nat, work: seq<int>, scope: Scope) {
    && Continued(records, extended, scope)
    && Requests(extended) == Requests(records) + Sum(work) && SameResults(records, extended)
    && |ids| == |work| && HoldsEach(extended, ids, layer, ScoreNames(WholePart(head, |work|)), ScoreArgs(WholePart(head, |work|)))
    && Leaves(records, extended, {}, Products(layer, ids, ScoreNames(WholePart(head, |work|))))
  }

  /** A decode head: every cache tile. */
  function WholePart(head: nat, n: nat): (part: Part)
    ensures |part.tiles| == n
  {
    Part(head, None, seq(n, j requires 0 <= j < n => j))
  }

  lemma {:induction false} ScoredAfterResidency(records: seq<Record>, resident: seq<Record>, extended: seq<Record>, ids: seq<int>, layer: nat,
                             head: nat, work: seq<int>, residency: int, scope: Scope)
    requires Continued(records, resident, scope) && SameWork(records, resident) && |work| >= 1
    requires Leaves(records, resident, {}, {(residency, ResidentQuery(layer, head))})
    requires ScoresAdded(resident, extended, layer, head, work, residency, scope)
    requires |ids| == |work| && forall j :: 0 <= j < |ids| ==> ids[j] == |resident| + 2 * j + 1
    ensures HeadScored(records, extended, ids, layer, head, work, scope)
  {
    ContinuedThrough(records, resident, extended, scope);
    ScoresSupplied(|resident|, extended, ids, layer, head, |work|);
    ScoresAreProducts(|resident|, ids, layer, head, |work|);
  }

  lemma {:induction false} ScoresSupplied(start: int, extended: seq<Record>, ids: seq<int>, layer: nat, head: nat, n: nat)
    requires start >= 0 && SuppliesScores(extended, start, layer, head, n)
    requires |ids| == n && forall j :: 0 <= j < |ids| ==> ids[j] == start + 2 * j + 1
    ensures HoldsEach(extended, ids, layer, ScoreNames(WholePart(head, n)), ScoreArgs(WholePart(head, n)))
  {
    var names, args := ScoreNames(WholePart(head, n)), ScoreArgs(WholePart(head, n));
    forall j: nat | j < n
      ensures Holds(extended, ids[j], Tensor(layer, names[j]), args[j])
    {
      assert names[j] == ScorePart(head, None, j) && args[j] == TileMath(head, j);
      assert Holds(extended, start + 2 * j + 1, TileScore(layer, head, j), TileMath(head, j));
    }
  }

  lemma {:induction false} ScoresAreProducts(start: int, ids: seq<int>, layer: nat, head: nat, n: nat)
    requires |ids| == n && forall j :: 0 <= j < |ids| ==> ids[j] == start + 2 * j + 1
    ensures ScoreProducts(start, layer, head, n) <= Products(layer, ids, ScoreNames(WholePart(head, n)))
  {
    var names := ScoreNames(WholePart(head, n));
    forall p | p in ScoreProducts(start, layer, head, n)
      ensures p in Products(layer, ids, names)
    {
      var j: nat :| j < n && p == (start + 2 * j + 1, TileScore(layer, head, j));
      assert p == (ids[j], Tensor(layer, names[j]));
    }
  }

  /** One head's query residency and linked scores. */
  method HeadScores(records: seq<Record>, layer: nat, head: nat, work: seq<int>, ghost scope: Scope)
      returns (extended: seq<Record>, ids: seq<int>)
    requires AttentionBlock(records, scope) && layer < scope.layers && |work| >= 1
    ensures HeadScored(records, extended, ids, layer, head, work, scope)
  {
    var resident, residency := QueryResidency(records, layer, HeadQuery(head), scope);
    extended, ids := LinkedHeadScores(resident, layer, head, work, residency, scope);
    LinkedScoresExtend(resident, extended, layer, head, work, residency, scope);
    ScoredAfterResidency(records, resident, extended, ids, layer, head, work, residency, scope);
  }
}
