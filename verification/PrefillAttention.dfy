/** `generate_prefill_attention_records`: causal attention over query and key tiles. */
module PrefillAttention {
  import opened Attention
  import opened AttentionContexts
  import opened Blocks
  import opened CausalTiling
  import opened DataFlow
  import opened DecodeAttention
  import opened Division
  import opened Manifests
  import opened Records
  import opened Relinking
  import opened Results
  import opened Sequences

  // ---- the key tiles a query tile may attend to ----

  function VisibleTiles(q: Range, keys: seq<Range>): seq<nat>
    decreases |keys|
  {
    if keys == [] then []
    else
      var n := |keys| - 1;
      VisibleTiles(q, keys[..n]) + if CausalPairs(q, keys[n]) > 0 then [n] else []
  }

  /** Requests of one query tile's scores, and equally of its contexts. */
  function VisibleWork(q: Range, keys: seq<Range>, m: AttentionManifest): seq<int>
    decreases |keys|
  {
    if keys == [] then []
    else
      var n := |keys| - 1;
      VisibleWork(q, keys[..n], m)
      + if CausalPairs(q, keys[n]) > 0 then [NumRequests(CausalPairs(q, keys[n]) * m.headDim, m.datatyp)] else []
  }

  lemma {:induction false} VisibleSizes(q: Range, keys: seq<Range>, m: AttentionManifest)
    ensures |VisibleWork(q, keys, m)| == |VisibleTiles(q, keys)|
    decreases |keys|
  {
    if keys != [] {
      VisibleSizes(q, keys[..|keys| - 1], m);
    }
  }

  lemma {:induction false} FirstTileVisible(q: Range, keys: seq<Range>)
    requires q.size > 0 && q.start >= 0
    requires keys != [] && keys[0].start == 0 && keys[0].size > 0
    ensures |VisibleTiles(q, keys)| >= 1
    decreases |keys|
  {
    assert VisibleKeys(q.End() - 1, keys[0]) >= 1;
    assert CausalPairs(q, keys[0]) >= 1;
    if |keys| > 1 {
      FirstTileVisible(q, keys[..|keys| - 1]);
    }
  }

  // ---- scores ----

  function PromptScore(id: int, layer: nat, head: nat, query: nat, tile: nat, deps: seq<int>, requests: int): Record {
    Record(id, AttentionScore, layer, ScoreOp,
           [Tensor(layer, Visible(HeadQueryTile(head, query))), Tensor(layer, Visible(PromptTile(head, true, tile)))],
           [Tensor(layer, ScorePart(head, Some(query), tile))], deps, requests)
  }

  function PromptQuery(layer: nat, head: nat, query: nat): Tensor {
    Tensor(layer, Visible(HeadQueryTile(head, query)))
  }

  function PromptKey(layer: nat, head: nat, tile: nat): Tensor {
    Tensor(layer, Visible(PromptTile(head, true, tile)))
  }

  function QueryScore(layer: nat, head: nat, query: nat, tile: nat): Tensor {
    Tensor(layer, ScorePart(head, Some(query), tile))
  }

  function PromptQueryMath(head: nat, query: nat): Math {
    Computed(QOperandResidency, [Given(HeadQueryTile(head, query))])
  }

  function PromptKeyMath(head: nat, tile: nat): Math {
    Computed(PrefillTileResidency(true), [Given(PromptTile(head, true, tile))])
  }

  /** The score of a key tile of the prompt. */
  function PromptMath(head: nat, query: nat, tile: nat): Math {
    ScoreMath(PromptQueryMath(head, query), PromptKeyMath(head, tile))
  }

  lemma {:induction false} PromptScoreReads(rs: seq<Record>, s: Record, layer: nat, head: nat, query: nat, tile: nat, residency: int, key: int)
    requires Block(rs) && s == PromptScore(|rs|, layer, head, query, tile, [residency, key], s.requests)
    requires HoldsQuery(rs, residency, PromptQuery(layer, head, query), PromptQueryMath(head, query))
    requires Holds(rs, key, PromptKey(layer, head, tile), PromptKeyMath(head, tile))
    ensures Finds(rs, s.id, s.deps, s.inputs[0], PromptQueryMath(head, query))
    ensures Finds(rs, s.id, s.deps, s.inputs[1], PromptKeyMath(head, tile))
    ensures Takes(s, (residency, PromptQuery(layer, head, query))) && Takes(s, (key, PromptKey(layer, head, tile)))
  {
    assert residency in s.deps && key in s.deps;
    assert s.inputs[0] in s.inputs && s.inputs[1] in s.inputs;
  }

  lemma {:induction false} PromptScoreFits(rs: seq<Record>, s: Record, layer: nat, head: nat, query: nat, tile: nat, residency: int, key: int)
    requires Block(rs) && s == PromptScore(|rs|, layer, head, query, tile, [residency, key], s.requests)
    requires HasQuery(rs, residency, PromptQuery(layer, head, query)) && HasQuery(rs, key, PromptKey(layer, head, tile))
    ensures Follows(Env(rs), s, true) && AttentionShape(s) && OwnLayer(s)
  {
    assert residency in s.deps && key in s.deps;
    forall t | t in s.inputs
      ensures Fed(Env(rs), s.deps, t, true)
    {
      assert Supplies(Env(rs), residency, t) || Supplies(Env(rs), key, t);
    }
    assert s.outputs[0] in s.outputs;
  }

  lemma {:induction false} PromptScoreExtends(rs: seq<Record>, s: Record, layer: nat, head: nat, query: nat, tile: nat, residency: int, key: int, args: seq<Math>,
                           scope: Scope)
    requires AttentionBlock(rs, scope) && rs != [] && layer < scope.layers
    requires s == PromptScore(|rs|, layer, head, query, tile, [residency, key], s.requests)
    requires Follows(Env(rs), s, true) && AttentionShape(s) && OwnLayer(s)
    requires |args| == 2 && Finds(rs, s.id, s.deps, s.inputs[0], args[0]) && Finds(rs, s.id, s.deps, s.inputs[1], args[1])
    ensures Continued(rs, rs + [s], scope)
    ensures Requests(rs + [s]) == Requests(rs) + s.requests && SameResults(rs, rs + [s])
    ensures Holds(rs + [s], |rs|, QueryScore(layer, head, query, tile), Computed(ScoreOp, args))
  {
    forall j: nat | j < |args|
      ensures Finds(rs, s.id, s.deps, s.inputs[j], args[j])
    {
    }
    AddPlain(rs, s, args, scope);
  }

  lemma {:induction false} PromptScoreLeaves(rs: seq<Record>, s: Record, layer: nat, head: nat, query: nat, tile: nat, residency: int, key: int)
    requires s == PromptScore(|rs|, layer, head, query, tile, [residency, key], s.requests)
    requires Takes(s, (residency, PromptQuery(layer, head, query))) && Takes(s, (key, PromptKey(layer, head, tile)))
    ensures Leaves(rs, rs + [s], {(residency, PromptQuery(layer, head, query)), (key, PromptKey(layer, head, tile))},
                   {(|rs|, QueryScore(layer, head, query, tile))})
  {
    SpareSnoc(rs, s, {(residency, PromptQuery(layer, head, query)), (key, PromptKey(layer, head, tile))},
              {(|rs|, QueryScore(layer, head, query, tile))});
  }

  method AppendPromptScore(records: seq<Record>, layer: nat, head: nat, query: nat, tile: nat, residency: int, key: int,
                           requests: int, ghost scope: Scope)
      returns (extended: seq<Record>, id: int)
    requires AttentionBlock(records, scope) && records != [] && layer < scope.layers
    requires HoldsQuery(records, residency, PromptQuery(layer, head, query), PromptQueryMath(head, query))
    requires Holds(records, key, PromptKey(layer, head, tile), PromptKeyMath(head, tile))
    ensures Continued(records, extended, scope)
    ensures Requests(extended) == Requests(records) + requests && SameResults(records, extended)
    ensures Holds(extended, id, QueryScore(layer, head, query, tile), PromptMath(head, query, tile))
    ensures Leaves(records, extended, {(residency, PromptQuery(layer, head, query)), (key, PromptKey(layer, head, tile))},
                   {(id, QueryScore(layer, head, query, tile))})
  {
    id := |records|;
    var s := PromptScore(id, layer, head, query, tile, [residency, key], requests);
    PromptScoreFits(records, s, layer, head, query, tile, residency, key);
    PromptScoreReads(records, s, layer, head, query, tile, residency, key);
    PromptScoreExtends(records, s, layer, head, query, tile, residency, key,
      [PromptQueryMath(head, query), PromptKeyMath(head, tile)], scope);
    PromptScoreLeaves(records, s, layer, head, query, tile, residency, key);
    extended := records + [s];
  }

  /** Key residency and score of one key tile. */
  ghost predicate TileScored(records: seq<Record>, extended: seq<Record>, id: int, layer: nat, head: nat, query: nat, tile: nat, residency: int,
                             requests: int, scope: Scope) {
    && Continued(records, extended, scope)
    && Requests(extended) == Requests(records) + requests && SameResults(records, extended)
    && Holds(extended, id, QueryScore(layer, head, query, tile), PromptMath(head, query, tile))
    && Leaves(records, extended, {(residency, PromptQuery(layer, head, query))}, {(id, QueryScore(layer, head, query, tile))})
  }

  method ScoreKeyTile(records: seq<Record>, layer: nat, head: nat, query: nat, tile: nat, residency: int, requests: int,
                      ghost scope: Scope)
      returns (extended: seq<Record>, id: int)
    requires AttentionBlock(records, scope) && records != [] && layer < scope.layers && scope.tiles
    requires HoldsQuery(records, residency, PromptQuery(layer, head, query), PromptQueryMath(head, query))
    ensures TileScored(records, extended, id, layer, head, query, tile, residency, requests, scope)
  {
    var keyed, key := ResidentTile(records, layer, true, PromptTile(head, true, tile), Visible(PromptTile(head, true, tile)), scope);
    assert HoldsQuery(keyed, residency, PromptQuery(layer, head, query), PromptQueryMath(head, query));
    extended, id := AppendPromptScore(keyed, layer, head, query, tile, residency, key, requests, scope);
    ContinuedThrough(records, keyed, extended, scope);
  }

  /** The scores of the first visible tiles, which nothing has read. */
  ghost predicate PromptScored(records: seq<Record>, extended: seq<Record>, ids: seq<int>, layer: nat, head: nat, query: nat,
                               tiles: seq<nat>, work: seq<int>, residency: int, scope: Scope) {
    && AttentionBlock(extended, scope) && (records != [] ==> Continued(records, extended, scope))
    && Requests(extended) == Requests(records) + Sum(work) && SameResults(records, extended)
    && |ids| == |tiles|
    && HoldsEach(extended, ids, layer, ScoreNames(Part(head, Some(query), tiles)), ScoreArgs(Part(head, Some(query), tiles)))
    && Leaves(records, extended, if tiles == [] then {} else {(residency, PromptQuery(layer, head, query))},
              Products(layer, ids, ScoreNames(Part(head, Some(query), tiles))))
  }

  lemma {:induction false} NoPromptScores(records: seq<Record>, layer: nat, head: nat, query: nat, residency: int, scope: Scope)
    requires AttentionBlock(records, scope)
    ensures PromptScored(records, records, [], layer, head, query, [], [], residency, scope)
  {
  }

  lemma {:induction false} MorePromptScored(records: seq<Record>, before: seq<Record>, after: seq<Record>, ids: seq<int>, id: int, layer: nat, head: nat, query: nat,
                         tiles: seq<nat>, tile: nat, work: seq<int>, requests: int, residency: int, scope: Scope)
    requires records != [] && PromptScored(records, before, ids, layer, head, query, tiles, work, residency, scope)
    requires TileScored(before, after, id, layer, head, query, tile, residency, requests, scope)
    ensures PromptScored(records, after, ids + [id], layer, head, query, tiles + [tile], work + [requests], residency, scope)
  {
    ContinuedThrough(records, before, after, scope);
    MorePromptScores(before, after, ids, id, layer, head, query, tiles, tile);
    SumAppend(work, requests);
    var names := ScoreNames(Part(head, Some(query), tiles));
    MoreProducts(layer, ids, names, id, ScorePart(head, Some(query), tile));
    MoreNames(head, query, tiles, tile);
  }

  lemma {:induction false} MoreNames(head: nat, query: nat, tiles: seq<nat>, tile: nat)
    ensures ScoreNames(Part(head, Some(query), tiles + [tile])) == ScoreNames(Part(head, Some(query), tiles)) + [ScorePart(head, Some(query), tile)]
    ensures ScoreArgs(Part(head, Some(query), tiles + [tile])) == ScoreArgs(Part(head, Some(query), tiles)) + [PromptMath(head, query, tile)]
  {
  }

  method NextPromptScore(ghost records: seq<Record>, before: seq<Record>, layer: nat, head: nat, query: nat, tile: nat,
                         residency: int, requests: int, ghost ids: seq<int>, ghost tiles: seq<nat>, ghost work: seq<int>,
                         ghost scope: Scope)
      returns (after: seq<Record>, id: int)
    requires records != [] && PromptScored(records, before, ids, layer, head, query, tiles, work, residency, scope)
    requires layer < scope.layers && scope.tiles
    requires HoldsQuery(records, residency, PromptQuery(layer, head, query), PromptQueryMath(head, query))
    ensures PromptScored(records, after, ids + [id], layer, head, query, tiles + [tile], work + [requests], residency, scope)
  {
    assert HoldsQuery(before, residency, PromptQuery(layer, head, query), PromptQueryMath(head, query));
    after, id := ScoreKeyTile(before, layer, head, query, tile, residency, requests, scope);
    MorePromptScored(records, before, after, ids, id, layer, head, query, tiles, tile, work, requests, residency, scope);
  }

  lemma {:induction false} MorePromptScores(before: seq<Record>, after: seq<Record>, ids: seq<int>, id: int, layer: nat, head: nat, query: nat,
                         tiles: seq<nat>, tile: nat)
    requires HoldsEach(before, ids, layer, ScoreNames(Part(head, Some(query), tiles)), ScoreArgs(Part(head, Some(query), tiles)))
    requires KeepsValues(before, after) && Holds(after, id, QueryScore(layer, head, query, tile), PromptMath(head, query, tile))
    ensures HoldsEach(after, ids + [id], layer, ScoreNames(Part(head, Some(query), tiles + [tile])), ScoreArgs(Part(head, Some(query), tiles + [tile])))
  {
    var names, args := ScoreNames(Part(head, Some(query), tiles)), ScoreArgs(Part(head, Some(query), tiles));
    HoldsEachKept(before, after, ids, layer, names, args);
    MoreNames(head, query, tiles, tile);
  }

  lemma {:induction false} NextKeyTile(q: Range, keys: seq<Range>, k: nat, m: AttentionManifest)
    requires k < |keys|
    ensures KeyTotal(q, keys[k..]) == CausalPairs(q, keys[k]) + KeyTotal(q, keys[k + 1..])
    ensures VisibleTiles(q, keys[..k + 1]) == VisibleTiles(q, keys[..k]) + if CausalPairs(q, keys[k]) > 0 then [k] else []
    ensures VisibleWork(q, keys[..k + 1], m) == VisibleWork(q, keys[..k], m)
      + if CausalPairs(q, keys[k]) > 0 then [NumRequests(CausalPairs(q, keys[k]) * m.headDim, m.datatyp)] else []
  {
    assert keys[k..][1..] == keys[k + 1..];
    assert keys[..k + 1][..k] == keys[..k];
  }

  ghost predicate QueryProgress(tiles: seq<nat>, work: seq<int>, observed: int, q: Range, keys: seq<Range>, k: nat, m: AttentionManifest)
    requires k <= |keys|
  {
    && tiles == VisibleTiles(q, keys[..k]) && work == VisibleWork(q, keys[..k], m)
    && observed + KeyTotal(q, keys[k..]) == KeyTotal(q, keys)
  }

  lemma {:induction false} QueryProgresses(tiles: seq<nat>, work: seq<int>, observed: int, q: Range, keys: seq<Range>, k: nat, m: AttentionManifest)
    requires k < |keys| && QueryProgress(tiles, work, observed, q, keys, k, m)
    ensures CausalPairs(q, keys[k]) <= 0 ==> QueryProgress(tiles, work, observed, q, keys, k + 1, m)
    ensures CausalPairs(q, keys[k]) > 0 ==>
      QueryProgress(tiles + [k], work + [NumRequests(CausalPairs(q, keys[k]) * m.headDim, m.datatyp)],
                    observed + CausalPairs(q, keys[k]), q, keys, k + 1, m)
  {
    NextKeyTile(q, keys, k, m);
    assert tiles + [] == tiles && work + [] == work;
  }

  /** The scores of one query tile: key tiles with no legal pair are skipped. */
  method QueryScores(records: seq<Record>, layer: nat, head: nat, query: nat, q: Range, keys: seq<Range>,
                     m: AttentionManifest, residency: int, ghost scope: Scope)
      returns (extended: seq<Record>, ids: seq<int>, tiles: seq<nat>, work: seq<int>, observed: int)
    requires AttentionBlock(records, scope) && records != [] && layer < scope.layers && scope.tiles
    requires HoldsQuery(records, residency, PromptQuery(layer, head, query), PromptQueryMath(head, query))
    ensures tiles == VisibleTiles(q, keys) && work == VisibleWork(q, keys, m)
    ensures PromptScored(records, extended, ids, layer, head, query, tiles, work, residency, scope)
    ensures observed == KeyTotal(q, keys)
  {
    extended, ids, tiles, work, observed := records, [], [], [], 0;
    NoPromptScores(records, layer, head, query, residency, scope);
    for k := 0 to |keys|
      invariant PromptScored(records, extended, ids, layer, head, query, tiles, work, residency, scope)
      invariant QueryProgress(tiles, work, observed, q, keys, k, m)
    {
      var pairs := CausalPairCount(q, keys[k]);
      QueryProgresses(tiles, work, observed, q, keys, k, m);
      if pairs <= 0 {
        continue;
      }
      observed := observed + pairs;
      var requests, id := NumRequests(pairs * m.headDim, m.datatyp), 0;
      extended, id := NextPromptScore(records, extended, layer, head, query, k, residency, requests, ids, tiles, work, scope);
      ids, tiles, work := ids + [id], tiles + [k], work + [requests];
    }
    assert keys[..|keys|] == keys;
  }

  // ---- query tiles, heads, layers ----

  /** What a query tile may attend to. */
  function VisiblePart(head: nat, query: nat, q: Range, keys: seq<Range>): Part {
    Part(head, Some(query), VisibleTiles(q, keys))
  }

  lemma {:induction false} PromptScoresGrow(records: seq<Record>, resident: seq<Record>, scored: seq<Record>, ids: seq<int>, layer: nat, head: nat, query: nat,
                         tiles: seq<nat>, work: seq<int>, residency: int, scope: Scope)
    requires Continued(records, resident, scope) && SameWork(records, resident) && Settled(records, {}) && |tiles| >= 1
    requires Leaves(records, resident, {}, {(residency, PromptQuery(layer, head, query))})
    requires PromptScored(resident, scored, ids, layer, head, query, tiles, work, residency, scope)
    ensures Grown(records, scored, Sum(work), 0, scope) && scored != []
    ensures Settled(scored, Products(layer, ids, ScoreNames(Part(head, Some(query), tiles))))
  {
    ContinuedThrough(records, resident, scored, scope);
    SameTerminals(records, scored);
    PromptScoresLeft(records, resident, scored, ids, layer, head, query, tiles, residency);
    SettledAfter(records, scored, {}, {}, Products(layer, ids, ScoreNames(Part(head, Some(query), tiles))));
  }

  lemma {:induction false} PromptScoresLeft(records: seq<Record>, resident: seq<Record>, scored: seq<Record>, ids: seq<int>, layer: nat, head: nat, query: nat,
                         tiles: seq<nat>, residency: int)
    requires |ids| == |tiles|
    requires Leaves(records, resident, {}, {(residency, PromptQuery(layer, head, query))})
    requires Leaves(resident, scored, {(residency, PromptQuery(layer, head, query))}, Products(layer, ids, ScoreNames(Part(head, Some(query), tiles))))
    ensures Leaves(records, scored, {}, Products(layer, ids, ScoreNames(Part(head, Some(query), tiles))))
  {
  }

  /** One query tile: residency, scores, softmax, contexts, one terminal record. */
  method QueryTile(records: seq<Record>, layer: nat, head: nat, query: nat, q: Range, keys: seq<Range>,
                   m: AttentionManifest, ghost prompt: int, ghost scope: Scope)
      returns (extended: seq<Record>, observed: int)
    requires AttentionBlock(records, scope) && layer < scope.layers && scope.tiles && Settled(records, {})
    requires q.size > 0 && q.start >= 0 && prompt > 0 && Tiles(keys, 0, prompt)
    ensures Grown(records, extended, 2 * Sum(VisibleWork(q, keys, m)), 1, scope)
    ensures Settled(extended, {}) && Attended(extended, layer, VisiblePart(head, query, q, keys))
    ensures observed == KeyTotal(q, keys)
  {
    var resident, residency := QueryResidency(records, layer, HeadQueryTile(head, query), scope);
    var scored, ids, tiles, work;
    scored, ids, tiles, work, observed := QueryScores(resident, layer, head, query, q, keys, m, residency, scope);
    FirstTileVisible(q, keys);
    VisibleSizes(q, keys, m);
    PromptScoresGrow(records, resident, scored, ids, layer, head, query, tiles, work, residency, scope);
    ghost var part, end := Part(head, Some(query), tiles), 0;
    extended, end := HeadContexts(scored, layer, Part(head, Some(query), tiles), work, ids, ScoreArgs(part), scope);
    PartGrows(scored, extended, end, layer, part, ids, work, Products(layer, ids, ScoreNames(part)), scope);
    GrownTwice(records, scored, extended, Sum(work), Sum(work), 0, 1, scope);
  }

  /** Requests of one head's scores and contexts. */
  function HeadWork(queries: seq<Range>, keys: seq<Range>, m: AttentionManifest): int
    decreases |queries|
  {
    if queries == [] then 0
    else 2 * Sum(VisibleWork(queries[0], keys, m)) + HeadWork(queries[1..], keys, m)
  }

  lemma {:induction false} NextQueryTile(queries: seq<Range>, keys: seq<Range>, m: AttentionManifest, i: nat)
    requires i < |queries|
    ensures TileTotal(queries[i..], keys) == KeyTotal(queries[i], keys) + TileTotal(queries[i + 1..], keys)
    ensures HeadWork(queries[i..], keys, m) == 2 * Sum(VisibleWork(queries[i], keys, m)) + HeadWork(queries[i + 1..], keys, m)
  {
    assert queries[i..][1..] == queries[i + 1..];
  }

  lemma {:induction false} TilesPositive(ranges: seq<Range>, to: int)
    requires Tiles(ranges, 0, to)
    ensures forall r <- ranges :: r.size > 0 && r.start >= 0
  {
    TilesForward(ranges, 0, to);
  }

  /** The first query tiles of a head have their results. */
  ghost predicate QueriesAttended(rs: seq<Record>, layer: nat, head: nat, queries: seq<Range>, keys: seq<Range>, n: nat)
    requires n <= |queries|
  {
    forall q: nat :: q < n ==> Attended(rs, layer, VisiblePart(head, q, queries[q], keys))
  }

  /** The query tiles of a head so far: work, results, pairs seen. */
  ghost predicate QueriesDone(records: seq<Record>, extended: seq<Record>, layer: nat, head: nat, queries: seq<Range>, keys: seq<Range>,
                              m: AttentionManifest, n: nat, observed: int, scope: Scope)
    requires n <= |queries|
  {
    && Grown(records, extended, HeadWork(queries, keys, m) - HeadWork(queries[n..], keys, m), n, scope)
    && observed + TileTotal(queries[n..], keys) == TileTotal(queries, keys)
    && Settled(extended, {}) && QueriesAttended(extended, layer, head, queries, keys, n)
  }

  lemma {:induction false} NextQueryDone(records: seq<Record>, before: seq<Record>, after: seq<Record>, layer: nat, head: nat, queries: seq<Range>, keys: seq<Range>,
                      m: AttentionManifest, n: nat, observed: int, pairs: int, scope: Scope)
    requires n < |queries| && QueriesDone(records, before, layer, head, queries, keys, m, n, observed, scope)
    requires Grown(before, after, 2 * Sum(VisibleWork(queries[n], keys, m)), 1, scope) && Settled(after, {})
    requires Attended(after, layer, VisiblePart(head, n, queries[n], keys)) && pairs == KeyTotal(queries[n], keys)
    ensures QueriesDone(records, after, layer, head, queries, keys, m, n + 1, observed + pairs, scope)
  {
    NextQueryTile(queries, keys, m, n);
    GrownTwice(records, before, after, HeadWork(queries, keys, m) - HeadWork(queries[n..], keys, m), 2 * Sum(VisibleWork(queries[n], keys, m)),
               n, 1, scope);
    AllStay(before, after, 2 * Sum(VisibleWork(queries[n], keys, m)), 1, scope);
  }

  lemma {:induction false} NoQueriesDone(records: seq<Record>, layer: nat, head: nat, queries: seq<Range>, keys: seq<Range>, m: AttentionManifest, scope: Scope)
    requires AttentionBlock(records, scope) && Settled(records, {})
    ensures QueriesDone(records, records, layer, head, queries, keys, m, 0, 0, scope)
  {
    assert queries[0..] == queries;
  }

  lemma {:induction false} AllQueriesDone(records: seq<Record>, extended: seq<Record>, layer: nat, head: nat, queries: seq<Range>, keys: seq<Range>,
                       m: AttentionManifest, observed: int, scope: Scope)
    requires QueriesDone(records, extended, layer, head, queries, keys, m, |queries|, observed, scope)
    ensures Grown(records, extended, HeadWork(queries, keys, m), |queries|, scope) && observed == TileTotal(queries, keys)
  {
    assert queries[|queries|..] == [];
  }

  /** One head: every query tile in turn, counting the pairs seen. */
  method PrefillHead(records: seq<Record>, layer: nat, head: nat, queries: seq<Range>, keys: seq<Range>,
                     m: AttentionManifest, ghost scope: Scope)
      returns (extended: seq<Record>, observed: int)
    requires AttentionBlock(records, scope) && layer < scope.layers && scope.tiles && Settled(records, {})
    requires m.seqLen > 0 && Tiles(queries, 0, m.seqLen) && Tiles(keys, 0, m.seqLen)
    ensures Grown(records, extended, HeadWork(queries, keys, m), |queries|, scope)
    ensures Settled(extended, {}) && QueriesAttended(extended, layer, head, queries, keys, |queries|)
    ensures observed == m.seqLen * (m.seqLen + 1) / 2
  {
    TilesPositive(queries, m.seqLen);
    extended, observed := records, 0;
    NoQueriesDone(records, layer, head, queries, keys, m, scope);
    for i := 0 to |queries|
      invariant QueriesDone(records, extended, layer, head, queries, keys, m, i, observed, scope)
    {
      ghost var before := extended;
      var pairs;
      extended, pairs := QueryTile(extended, layer, head, i, queries[i], keys, m, m.seqLen, scope);
      NextQueryDone(records, before, extended, layer, head, queries, keys, m, i, observed, pairs, scope);
      observed := observed + pairs;
    }
    AllQueriesDone(records, extended, layer, head, queries, keys, m, observed, scope);
    CausalTilingExact(queries, keys, m.seqLen);
  }

  /** The first heads of a layer have the results of all query tiles. */
  ghost predicate PromptAttended(rs: seq<Record>, layer: nat, heads: nat, queries: seq<Range>, keys: seq<Range>) {
    forall h: nat :: h < heads ==> QueriesAttended(rs, layer, h, queries, keys, |queries|)
  }

  lemma {:induction false} PromptStays(before: seq<Record>, after: seq<Record>, layer: nat, heads: nat, queries: seq<Range>, keys: seq<Range>, work: int,
                    terminals: int, scope: Scope)
    requires PromptAttended(before, layer, heads, queries, keys) && Grown(before, after, work, terminals, scope)
    ensures PromptAttended(after, layer, heads, queries, keys)
  {
    AllStay(before, after, work, terminals, scope);
    forall h: nat, q: nat | h < heads && q < |queries|
      ensures Attended(after, layer, VisiblePart(h, q, queries[q], keys))
    {
      assert QueriesAttended(before, layer, h, queries, keys, |queries|);
      assert Attended(before, layer, VisiblePart(h, q, queries[q], keys));
    }
  }

  ghost predicate PromptHeadsDone(records: seq<Record>, extended: seq<Record>, layer: nat, heads: nat, queries: seq<Range>, keys: seq<Range>,
                                  m: AttentionManifest, scope: Scope) {
    && Grown(records, extended, Times(heads, HeadWork(queries, keys, m)), Times(heads, |queries|), scope)
    && Settled(extended, {}) && PromptAttended(extended, layer, heads, queries, keys)
  }

  lemma {:induction false} NextPromptHead(records: seq<Record>, before: seq<Record>, after: seq<Record>, layer: nat, heads: nat, queries: seq<Range>,
                       keys: seq<Range>, m: AttentionManifest, scope: Scope)
    requires PromptHeadsDone(records, before, layer, heads, queries, keys, m, scope)
    requires Grown(before, after, HeadWork(queries, keys, m), |queries|, scope) && Settled(after, {})
    requires QueriesAttended(after, layer, heads, queries, keys, |queries|)
    ensures PromptHeadsDone(records, after, layer, heads + 1, queries, keys, m, scope)
  {
    GrownTwice(records, before, after, Times(heads, HeadWork(queries, keys, m)), HeadWork(queries, keys, m), Times(heads, |queries|), |queries|, scope);
    PromptStays(before, after, layer, heads, queries, keys, HeadWork(queries, keys, m), |queries|, scope);
  }

  /** One layer: its heads in turn, each checked for the expected number of pairs. */
  method PrefillLayer(records: seq<Record>, layer: nat, queries: seq<Range>, keys: seq<Range>, m: AttentionManifest,
                      ghost scope: Scope)
      returns (r: Result<seq<Record>>)
    requires AttentionBlock(records, scope) && layer < scope.layers && scope.tiles && m.heads > 0 && Settled(records, {})
    requires m.seqLen > 0 && Tiles(queries, 0, m.seqLen) && Tiles(keys, 0, m.seqLen) && |queries| > 0
    ensures r.Ok? && PromptHeadsDone(records, r.value, layer, m.heads, queries, keys, m, scope)
  {
    var extended := records;
    var expected := m.seqLen * (m.seqLen + 1) / 2;
    for head := 0 to m.heads
      invariant PromptHeadsDone(records, extended, layer, head, queries, keys, m, scope)
    {
      ghost var before := extended;
      var observed;
      extended, observed := PrefillHead(extended, layer, head, queries, keys, m, scope);
      NextPromptHead(records, before, extended, layer, head, queries, keys, m, scope);
      if observed != expected {
        return Err(PairCountMismatch);
      }
    }
    r := Ok(extended);
  }

  /** Every head and query tile of the first layers has a result: its attention to the
      tiles it may see. */
  ghost predicate PrefillComputes(rs: seq<Record>, layers: nat, heads: nat, queries: seq<Range>, keys: seq<Range>) {
    Settled(rs, {}) && forall l: nat :: l < layers ==> PromptAttended(rs, l, heads, queries, keys)
  }

  ghost predicate PromptLayersDone(rs: seq<Record>, layers: nat, queries: seq<Range>, keys: seq<Range>, m: AttentionManifest, scope: Scope)
    requires m.heads > 0
  {
    && Grown([], rs, Times(layers, Times(m.heads, HeadWork(queries, keys, m))), Times(layers, Times(m.heads, |queries|)), scope)
    && PrefillComputes(rs, layers, m.heads, queries, keys)
  }

  lemma {:induction false} NextPromptLayer(before: seq<Record>, after: seq<Record>, layer: nat, queries: seq<Range>, keys: seq<Range>, m: AttentionManifest,
                        scope: Scope)
    requires m.heads > 0 && PromptLayersDone(before, layer, queries, keys, m, scope)
    requires PromptHeadsDone(before, after, layer, m.heads, queries, keys, m, scope)
    ensures PromptLayersDone(after, layer + 1, queries, keys, m, scope)
  {
    var work, count := Times(m.heads, HeadWork(queries, keys, m)), Times(m.heads, |queries|);
    GrownTwice([], before, after, Times(layer, work), work, Times(layer, count), count, scope);
    forall l: nat | l < layer + 1
      ensures PromptAttended(after, l, m.heads, queries, keys)
    {
      if l < layer {
        PromptStays(before, after, l, m.heads, queries, keys, work, count, scope);
      }
    }
  }

  lemma {:induction false} NoPromptLayers(queries: seq<Range>, keys: seq<Range>, m: AttentionManifest, scope: Scope)
    requires m.heads > 0
    ensures PromptLayersDone([], 0, queries, keys, m, scope)
  {
    EmptyBlock();
  }

  lemma {:induction false} PromptTotals(records: seq<Record>, queries: seq<Range>, keys: seq<Range>, m: AttentionManifest, scope: Scope)
    requires m.heads > 0 && m.layers > 0 && |queries| > 0 && PromptLayersDone(records, m.layers, queries, keys, m, scope)
    ensures Requests(records) == m.layers * (m.heads * HeadWork(queries, keys, m))
    ensures Terminals(records) == m.layers * (m.heads * |queries|) && records != []
  {
    TimesIsProduct(m.heads, HeadWork(queries, keys, m));
    TimesIsProduct(m.heads, |queries|);
    TimesIsProduct(m.layers, m.heads * HeadWork(queries, keys, m));
    TimesIsProduct(m.layers, m.heads * |queries|);
    MulPositive(m.heads, |queries|);
    MulPositive(m.layers, m.heads * |queries|);
  }

  method AddPromptLayer(records: seq<Record>, layer: nat, queries: seq<Range>, keys: seq<Range>, m: AttentionManifest, ghost scope: Scope)
      returns (r: Result<seq<Record>>)
    requires m.heads > 0 && PromptLayersDone(records, layer, queries, keys, m, scope) && layer < scope.layers && scope.tiles
    requires m.seqLen > 0 && Tiles(queries, 0, m.seqLen) && Tiles(keys, 0, m.seqLen) && |queries| > 0
    ensures r.Ok? && PromptLayersDone(r.value, layer + 1, queries, keys, m, scope)
  {
    r := PrefillLayer(records, layer, queries, keys, m, scope);
    NextPromptLayer(records, r.value, layer, queries, keys, m, scope);
  }

  method AllPromptLayers(queries: seq<Range>, keys: seq<Range>, m: AttentionManifest, ghost scope: Scope) returns (r: Result<seq<Record>>)
    requires m.heads > 0 && m.seqLen > 0 && m.layers == scope.layers && scope.tiles && m.layers >= 0
    requires Tiles(queries, 0, m.seqLen) && Tiles(keys, 0, m.seqLen) && |queries| > 0
    ensures r.Ok? && PromptLayersDone(r.value, m.layers, queries, keys, m, scope)
  {
    var records: seq<Record> := [];
    NoPromptLayers(queries, keys, m, scope);
    for layer := 0 to m.layers
      invariant PromptLayersDone(records, layer, queries, keys, m, scope)
    {
      var out := AddPromptLayer(records, layer, queries, keys, m, scope);
      if out.Err? {
        return out;
      }
      records := out.value;
    }
    r := Ok(records);
  }

  /** Queries and keys of a valid manifest. */
  method PromptTiles(m: AttentionManifest) returns (queries: seq<Range>, keys: seq<Range>)
    requires ValidAttention(m)
    ensures queries == QueryTiles(m) && keys == KeyTiles(m) && |queries| > 0
    ensures Tiles(queries, 0, m.seqLen) && Tiles(keys, 0, m.seqLen)
  {
    queries := TileRanges(m.seqLen, m.scoreTile);
    keys := TileRanges(m.seqLen, m.contextTile);
    SomeTile(m.seqLen, m.scoreTile);
  }

  /** `generate_prefill_attention_records`.  The pair-count error cannot happen, and
      every head and query tile ends in one terminal record, its attention to the tiles
      it may see; every other output is read by a record that depends on its maker. */
  method GeneratePrefillAttention(m: AttentionManifest) returns (r: Result<seq<Record>>)
    requires m.phase.Prefill?
    ensures r.Ok? <==> ValidAttention(m)
    ensures r.Ok? ==>
      && AttentionBlock(r.value, Scope(m.layers, true)) && r.value != []
      && Requests(r.value) == m.layers * (m.heads * HeadWork(QueryTiles(m), KeyTiles(m), m))
      && Terminals(r.value) == m.layers * (m.heads * |QueryTiles(m)|)
      && PrefillComputes(r.value, m.layers, m.heads, QueryTiles(m), KeyTiles(m))
  {
    if !ValidAttention(m) {
      return Err(BadArgument);
    }
    ghost var scope := Scope(m.layers, true);
    var queries, keys := PromptTiles(m);
    r := AllPromptLayers(queries, keys, m, scope);
    PromptTotals(r.value, queries, keys, m, scope);
  }

  function QueryTiles(m: AttentionManifest): (r: seq<Range>)
    requires m.scoreTile > 0
  {
    PredictedRanges(m.seqLen, m.scoreTile)
  }

  function KeyTiles(m: AttentionManifest): seq<Range>
    requires m.contextTile > 0
  {
    PredictedRanges(m.seqLen, m.contextTile)
  }
}
