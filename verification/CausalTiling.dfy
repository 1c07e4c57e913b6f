/** Tiling of the causal attention triangle: the generator's loops, the predictor's
    comprehensions, and the exactness of the tiling. */
module CausalTiling {
  import opened Division

  datatype Range = Range(start: int, size: int) {
    function End(): int { start + size }
  }

  /** `ranges` cuts [from, to) into consecutive non-empty pieces. */
  ghost predicate Tiles(ranges: seq<Range>, from: int, to: int)
    decreases |ranges|
  {
    if ranges == [] then from == to
    else ranges[0].start == from && ranges[0].size > 0 && Tiles(ranges[1..], ranges[0].End(), to)
  }

  /** Number of keys of `keys` the query may attend to: k in the range with k <= q. */
  function VisibleKeys(query: int, keys: Range): int {
    Max(0, Min(keys.End(), query + 1) - keys.start)
  }

  function CausalPairs(queries: Range, keys: Range): (n: int)
    ensures n >= 0
    decreases Max(0, queries.size)
  {
    if queries.size <= 0 then 0
    else CausalPairs(Range(queries.start, queries.size - 1), keys) + VisibleKeys(queries.End() - 1, keys)
  }

  // ---- the source's two tilers and two counters ----

  /** `_tile_ranges`. */
  method TileRanges(total: int, tile: int) returns (ranges: seq<Range>)
    requires tile > 0
    ensures Tiles(ranges, 0, Max(0, total))
    ensures forall i :: 0 <= i < |ranges| ==> ranges[i].size <= tile
    ensures ranges == PredictedRanges(total, tile)
  {
    ranges := [];
    var start := 0;
    while start < total
      invariant start == 0 || 0 < start <= total
      invariant Tiles(ranges, 0, start)
      invariant start == Min(|ranges| * tile, Max(0, total))
      invariant |ranges| >= 1 ==> (|ranges| - 1) * tile < total
      invariant forall i :: 0 <= i < |ranges| ==>
        ranges[i].start == i * tile && ranges[i].size == Min(tile, total - i * tile)
      decreases total - start
    {
      var size := Min(tile, total - start);
      TilesSnoc(ranges, 0, Range(start, size));
      NextMultiple(|ranges|, tile);
      ranges := ranges + [Range(start, size)];
      start := start + size;
    }
    if total > 0 {
      CountOfTiles(total, tile, |ranges|);
    } else {
      NoTiles(total, tile, |ranges|);
    }
  }

  lemma NextMultiple(n: int, tile: int)
    ensures (n + 1) * tile == n * tile + tile
  {
  }

  lemma CountOfTiles(total: int, tile: int, n: int)
    requires total > 0 && tile > 0 && n >= 1
    requires n * tile >= total && (n - 1) * tile < total
    ensures CeilDiv(total, tile) == n
  {
    NextMultiple(n - 1, tile);
    QuotUnique(total + tile - 1, tile, n, total + tile - 1 - n * tile);
  }

  lemma NoTiles(total: int, tile: int, n: int)
    requires total <= 0 && tile > 0
    ensures CeilDiv(total, tile) <= 0
  {
    QuotBelow(total + tile - 1, 1, tile);
  }

  lemma {:induction false} TilesSnoc(ranges: seq<Range>, from: int, last: Range)
    requires Tiles(ranges, from, last.start) && last.size > 0
    ensures Tiles(ranges + [last], from, last.End())
    decreases |ranges|
  {
    if ranges == [] {
      assert ([last])[1..] == [];
    } else {
      TilesSnoc(ranges[1..], ranges[0].End(), last);
      assert (ranges + [last])[1..] == ranges[1..] + [last];
    }
  }

  /** `_prefill_tile_ranges`: one piece for each multiple of `tile` below `total`. */
  function PredictedRanges(total: int, tile: int): seq<Range>
    requires tile > 0
  {
    seq(Max(0, CeilDiv(total, tile)), i => Range(i * tile, Min(tile, total - i * tile)))
  }

  lemma TileStarts(total: int, tile: int, n: int)
    requires total > 0 && tile > 0 && 1 <= n <= CeilDiv(total, tile)
    ensures (n - 1) * tile < total && n * tile == (n - 1) * tile + tile
  {
    CeilDivBounds(total, tile);
    MulMonotone(n, CeilDiv(total, tile), tile);
  }

  lemma {:induction false} PredictedPrefix(total: int, tile: int, n: nat)
    requires total > 0 && tile > 0 && n <= |PredictedRanges(total, tile)|
    ensures Tiles(PredictedRanges(total, tile)[..n], 0, Min(n * tile, total))
    decreases n
  {
    var ranges := PredictedRanges(total, tile);
    if n > 0 {
      PredictedPrefix(total, tile, n - 1);
      TileStarts(total, tile, n);
      TilesSnoc(ranges[..n - 1], 0, ranges[n - 1]);
      assert ranges[..n] == ranges[..n - 1] + [ranges[n - 1]];
    }
  }

  /** The predictor's comprehension tiles the tokens. */
  lemma PredictedTiles(total: int, tile: int)
    requires total > 0 && tile > 0
    ensures Tiles(PredictedRanges(total, tile), 0, total)
  {
    var ranges := PredictedRanges(total, tile);
    PredictedPrefix(total, tile, |ranges|);
    CeilDivBounds(total, tile);
    assert ranges[..|ranges|] == ranges;
  }

  /** `_causal_pair_count`, and equally the sum in `_prefill_causal_pair_count`. */
  method CausalPairCount(queries: Range, keys: Range) returns (count: int)
    ensures count == CausalPairs(queries, keys)
  {
    count := 0;
    var q := queries.start;
    while q < queries.End()
      invariant q == queries.start || queries.start < q <= queries.End()
      invariant count == CausalPairs(Range(queries.start, q - queries.start), keys)
    {
      count := count + VisibleKeys(q, keys);
      q := q + 1;
    }
    assert queries.size > 0 ==> Range(queries.start, q - queries.start) == queries;
  }

  // ---- what the count means ----

  function Interval(from: int, to: int): (s: set<int>)
    ensures |s| == Max(0, to - from)
    ensures forall k :: k in s <==> from <= k < to
    decreases Max(0, to - from)
  {
    if from >= to then {} else Interval(from, to - 1) + {to - 1}
  }

  ghost function LegalPairs(queries: Range, keys: Range): (s: set<(int, int)>)
    ensures forall p :: p in s <==>
      queries.start <= p.0 < queries.End() && keys.start <= p.1 < keys.End() && p.1 <= p.0
  {
    set q, k | q in Interval(queries.start, queries.End()) && k in Interval(keys.start, keys.End()) && k <= q :: (q, k)
  }

  ghost function Row(q: int, from: int, to: int): (s: set<(int, int)>)
    ensures forall p :: p in s <==> p.0 == q && from <= p.1 < to
    ensures |s| == Max(0, to - from)
    decreases Max(0, to - from)
  {
    if from >= to then {} else Row(q, from, to - 1) + {(q, to - 1)}
  }

  lemma DisjointSizes(a: set<(int, int)>, b: set<(int, int)>, both: set<(int, int)>)
    requires forall p :: p in both <==> p in a || p in b
    requires forall p :: p in a ==> p !in b
    ensures |both| == |a| + |b|
  {
    assert both == a + b;
    assert a !! b;
  }

  /** The last query of a range adds one pair for every key it may attend to. */
  lemma LastQueryPairs(queries: Range, keys: Range)
    requires queries.size > 0
    ensures |LegalPairs(queries, keys)|
         == |LegalPairs(Range(queries.start, queries.size - 1), keys)| + VisibleKeys(queries.End() - 1, keys)
  {
    var init := Range(queries.start, queries.size - 1);
    var row := Row(queries.End() - 1, keys.start, Min(keys.End(), queries.End()));
    DisjointSizes(LegalPairs(init, keys), row, LegalPairs(queries, keys));
  }

  ghost function LegalCount(queries: Range, keys: Range): int {
    |LegalPairs(queries, keys)|
  }

  lemma NoQueries(queries: Range, keys: Range)
    requires queries.size <= 0
    ensures LegalCount(queries, keys) == 0
  {
    assert LegalPairs(queries, keys) == {};
  }

  lemma LastQueryCount(queries: Range, keys: Range)
    requires queries.size > 0
    ensures LegalCount(queries, keys)
         == LegalCount(Range(queries.start, queries.size - 1), keys) + VisibleKeys(queries.End() - 1, keys)
  {
    LastQueryPairs(queries, keys);
  }

  /** The loop counts exactly the (query, key) pairs with key <= query. */
  lemma {:induction false} PairsAreCounted(queries: Range, keys: Range)
    ensures CausalPairs(queries, keys) == LegalCount(queries, keys)
    decreases Max(0, queries.size)
  {
    if queries.size <= 0 {
      NoQueries(queries, keys);
    } else {
      PairsAreCounted(Range(queries.start, queries.size - 1), keys);
      LastQueryCount(queries, keys);
    }
  }

  // ---- exactness ----

  function KeyTotal(queries: Range, keys: seq<Range>): int
    decreases |keys|
  {
    if keys == [] then 0 else CausalPairs(queries, keys[0]) + KeyTotal(queries, keys[1..])
  }

  function TileTotal(queries: seq<Range>, keys: seq<Range>): int
    decreases |queries|
  {
    if queries == [] then 0 else KeyTotal(queries[0], keys) + TileTotal(queries[1..], keys)
  }

  function RowTotal(query: int, keys: seq<Range>): int
    decreases |keys|
  {
    if keys == [] then 0 else VisibleKeys(query, keys[0]) + RowTotal(query, keys[1..])
  }

  lemma {:induction false} TilesForward(ranges: seq<Range>, from: int, to: int)
    requires Tiles(ranges, from, to)
    ensures from <= to
    ensures forall r <- ranges :: r.size > 0 && from <= r.start && r.End() <= to
    decreases |ranges|
  {
    if ranges != [] {
      TilesForward(ranges[1..], ranges[0].End(), to);
    }
  }

  lemma {:induction false} RowTelescopes(query: int, keys: seq<Range>, from: int, to: int)
    requires Tiles(keys, from, to)
    ensures RowTotal(query, keys) == VisibleKeys(query, Range(from, to - from))
    decreases |keys|
  {
    if keys != [] {
      TilesForward(keys, from, to);
      TilesForward(keys[1..], keys[0].End(), to);
      RowTelescopes(query, keys[1..], keys[0].End(), to);
    }
  }

  lemma {:induction false} KeyTotalDropsARow(queries: Range, keys: seq<Range>)
    requires queries.size > 0
    ensures KeyTotal(queries, keys)
         == KeyTotal(Range(queries.start, queries.size - 1), keys) + RowTotal(queries.End() - 1, keys)
    decreases |keys|
  {
    if keys != [] {
      KeyTotalDropsARow(queries, keys[1..]);
    }
  }

  lemma {:induction false} EmptyRow(start: int, keys: seq<Range>)
    ensures KeyTotal(Range(start, 0), keys) == 0
    decreases |keys|
  {
    if keys != [] {
      EmptyRow(start, keys[1..]);
    }
  }

  /** Twice the number of causal pairs among the first `n` tokens. */
  function TwiceTriangle(n: int): int {
    n * (n + 1)
  }

  lemma TriangleStep(n: int)
    ensures TwiceTriangle(n) == TwiceTriangle(n - 1) + 2 * n
  {
  }

  /** Over any tiling of the keys, a query tile sees its slice of the triangle. */
  lemma {:induction false} QueryTileExact(queries: Range, keys: seq<Range>, prompt: int)
    requires Tiles(keys, 0, prompt)
    requires queries.size >= 0 && queries.start >= 0 && queries.End() <= prompt
    ensures 2 * KeyTotal(queries, keys) == TwiceTriangle(queries.End()) - TwiceTriangle(queries.start)
    decreases queries.size
  {
    if queries.size == 0 {
      EmptyRow(queries.start, keys);
    } else {
      var init := Range(queries.start, queries.size - 1);
      QueryTileExact(init, keys, prompt);
      KeyTotalDropsARow(queries, keys);
      RowTelescopes(queries.End() - 1, keys, 0, prompt);
      TriangleStep(queries.End());
    }
  }

  lemma {:induction false} TileTotalExact(queries: seq<Range>, keys: seq<Range>, from: int, prompt: int)
    requires Tiles(keys, 0, prompt) && Tiles(queries, from, prompt) && from >= 0
    ensures 2 * TileTotal(queries, keys) == TwiceTriangle(prompt) - TwiceTriangle(from)
    decreases |queries|
  {
    if queries != [] {
      TilesForward(queries, from, prompt);
      QueryTileExact(queries[0], keys, prompt);
      TileTotalExact(queries[1..], keys, queries[0].End(), prompt);
    }
  }

  /** Any two tilings of the prompt count every causal pair once. */
  lemma CausalTilingExact(queries: seq<Range>, keys: seq<Range>, prompt: int)
    requires Tiles(queries, 0, prompt) && Tiles(keys, 0, prompt)
    ensures TileTotal(queries, keys) == prompt * (prompt + 1) / 2
  {
    TileTotalExact(queries, keys, 0, prompt);
  }
}
