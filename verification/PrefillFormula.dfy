/** `prefill_formula`: the closed form that predicts, without generating a trace, how
    many MAC requests one dense prefill layer issues. */
module PrefillFormula {
  import opened CausalTiling
  import opened Division
  import opened Ffn
  import opened LayerParts
  import opened Manifests
  import opened PrefillAttention
  import opened Relinking
  import opened Results
  import opened Sequences

  datatype ModelSpec = ModelSpec(
    layers: int, hidden: int, heads: int, headDim: int, ffnHidden: int, datatyp: Datatype,
    kvHeads: int, variant: Variant)

  // ---- the predictor ----

  /** MACs of one query tile against the key tiles, without the generator's floor of
      one request. */
  function TileMacs(q: Range, keys: seq<Range>, headDim: int, lanes: int): int
    requires lanes > 0
    decreases |keys|
  {
    if keys == [] then 0
    else
      var n := |keys| - 1;
      var pairs := CausalPairs(q, keys[n]);
      TileMacs(q, keys[..n], headDim, lanes) + if pairs > 0 then 2 * CeilDiv(pairs * headDim, lanes) else 0
  }

  function HeadMacs(queries: seq<Range>, keys: seq<Range>, headDim: int, lanes: int): int
    requires lanes > 0
    decreases |queries|
  {
    if queries == [] then 0
    else
      var n := |queries| - 1;
      HeadMacs(queries[..n], keys, headDim, lanes) + TileMacs(queries[n], keys, headDim, lanes)
  }

  /** `_prefill_attention_pim_mac_per_layer`. */
  method AttentionMacPerLayer(prompt: int, heads: int, headDim: int, lanes: int, scoreTile: int, contextTile: int)
      returns (macs: int)
    requires lanes > 0 && scoreTile > 0 && contextTile > 0
    ensures macs == heads * HeadMacs(PredictedRanges(prompt, scoreTile), PredictedRanges(prompt, contextTile), headDim, lanes)
  {
    var queries := PredictedRanges(prompt, scoreTile);
    var keys := PredictedRanges(prompt, contextTile);
    var perHead := 0;
    for i := 0 to |queries|
      invariant perHead == HeadMacs(queries[..i], keys, headDim, lanes)
    {
      assert queries[..i + 1][..i] == queries[..i];
      for k := 0 to |keys|
        invariant perHead == HeadMacs(queries[..i], keys, headDim, lanes) + TileMacs(queries[i], keys[..k], headDim, lanes)
      {
        assert keys[..k + 1][..k] == keys[..k];
        var pairs := CausalPairCount(queries[i], keys[k]);
        if pairs > 0 {
          perHead := perHead + 2 * CeilDiv(pairs * headDim, lanes);
        }
      }
      assert keys[..|keys|] == keys;
    }
    assert queries[..|queries|] == queries;
    macs := heads * perHead;
  }

  function Tile(prompt: int): int { Min(256, prompt) }

  /** The manifests `get_dense_prefill_manifests` builds from a model. */
  function AttentionManifestOf(s: ModelSpec, prompt: int): AttentionManifest {
    AttentionManifest(Prefill, s.layers, s.heads, s.kvHeads, s.headDim, 0, prompt, s.hidden, s.datatyp,
                      Tile(prompt), Tile(prompt), false)
  }

  function FfnManifestOf(s: ModelSpec, prompt: int, activationTile: int): FfnManifest {
    FfnManifest(Prefill, s.layers, prompt, s.hidden, s.ffnHidden, activationTile, s.datatyp, s.variant)
  }

  /** Specification of the prediction, in the shape of the source's expressions. */
  function Prediction(s: ModelSpec, prompt: int): Buckets
    requires prompt > 0
  {
    var lanes := Lanes(s.datatyp);
    var q, kv := s.heads * s.headDim, s.kvHeads * s.headDim;
    Buckets(
      CeilDiv(prompt * s.hidden * q, lanes) + CeilDiv(prompt * s.hidden * kv, lanes)
      + CeilDiv(prompt * s.hidden * kv, lanes) + CeilDiv(prompt * q * s.hidden, lanes),
      s.heads * HeadMacs(PredictedRanges(prompt, Tile(prompt)), PredictedRanges(prompt, Tile(prompt)), s.headDim, lanes),
      ProjectionCount(s.variant) * CeilDiv(prompt * s.hidden * s.ffnHidden, lanes), 0)
  }

  /** `prefill_formula`.  Resource tables exist for int8 and fp16 only. */
  method Predict(s: ModelSpec, prompt: int) returns (r: Result<Buckets>)
    ensures r.Ok? <==> prompt > 0 && !s.datatyp.Bf16?
    ensures r.Ok? ==> r.value == Prediction(s, prompt)
  {
    if prompt <= 0 || s.datatyp.Bf16? {
      return Err(BadArgument);
    }
    var lanes := if s.datatyp.Int8? then 32 else 16;
    var q, kv := s.heads * s.headDim, s.kvHeads * s.headDim;
    var qkvo := CeilDiv(prompt * s.hidden * q, lanes) + CeilDiv(prompt * s.hidden * kv, lanes)
      + CeilDiv(prompt * s.hidden * kv, lanes) + CeilDiv(prompt * q * s.hidden, lanes);
    var tile := Tile(prompt);
    var attention := AttentionMacPerLayer(prompt, s.heads, s.headDim, lanes, tile, tile);
    var ffn := ProjectionCount(s.variant) * CeilDiv(prompt * s.hidden * s.ffnHidden, lanes);
    r := Ok(Buckets(qkvo, attention, ffn, 0));
  }

  // ---- the generator's work ----

  function PartBuckets(qkvo: int, attention: int, tail: int, tiles: bool): Buckets {
    Buckets(qkvo, attention, if tiles then tail else 0, if tiles then 0 else tail)
  }

  /** Requests of one generated layer by the generator that emits them: the Q, K, V and
      O projections, the attention block, and the FFN block or the experts. */
  function LayerBuckets(d: Dims, attention: int, tail: int, tiles: bool): Buckets {
    PartBuckets(QkvRequests(d) + Work(d, d.hidden, d.oDim), attention, tail, tiles)
  }

  function DenseDims(a: AttentionManifest, f: FfnManifest): Dims {
    Dims(f.seqLen, f.hiddenSize, f.datatyp, a.heads * a.headDim, a.kvHeads * a.headDim, a.heads * a.headDim)
  }

  function PrefillLayerBuckets(a: AttentionManifest, f: FfnManifest): Buckets
    requires a.scoreTile > 0 && a.contextTile > 0
  {
    LayerBuckets(DenseDims(a, f), a.heads * HeadWork(QueryTiles(a), KeyTiles(a), a),
                 ProjectionCount(f.variant) * ProjectionRequests(f), true)
  }

  lemma NoFloor(elements: int, d: Datatype)
    requires elements >= 1
    ensures NumRequests(elements, d) == CeilDiv(elements, Lanes(d))
  {
    CeilDivBounds(elements, Lanes(d));
  }

  lemma PositiveProduct(a: int, b: int, c: int)
    requires a >= 1 && b >= 1 && c >= 1
    ensures a * b * c >= 1
  {
    MulPositive(a, b);
    MulPositive(a * b, c);
  }

  lemma Reorder(a: int, b: int, c: int)
    ensures a * b * c == a * c * b
  {
    assert a * b * c == a * (b * c) && a * c * b == a * (c * b);
  }

  lemma {:induction false} TileWorkPredicted(q: Range, keys: seq<Range>, m: AttentionManifest)
    requires m.headDim > 0
    ensures 2 * Sum(VisibleWork(q, keys, m)) == TileMacs(q, keys, m.headDim, Lanes(m.datatyp))
    decreases |keys|
  {
    if keys != [] {
      var n := |keys| - 1;
      TileWorkPredicted(q, keys[..n], m);
      var pairs := CausalPairs(q, keys[n]);
      var done := VisibleWork(q, keys[..n], m);
      if pairs > 0 {
        MulPositive(pairs, m.headDim);
        NoFloor(pairs * m.headDim, m.datatyp);
        SumAppend(done, NumRequests(pairs * m.headDim, m.datatyp));
      } else {
        assert done + [] == done;
      }
    }
  }

  lemma {:induction false} HeadWorkSnoc(queries: seq<Range>, q: Range, keys: seq<Range>, m: AttentionManifest)
    ensures HeadWork(queries + [q], keys, m) == HeadWork(queries, keys, m) + 2 * Sum(VisibleWork(q, keys, m))
    decreases |queries|
  {
    if queries == [] {
      assert ([q])[1..] == [] && [] + [q] == [q];
    } else {
      HeadWorkSnoc(queries[1..], q, keys, m);
      assert (queries + [q])[1..] == queries[1..] + [q];
    }
  }

  lemma {:induction false} HeadWorkPredicted(queries: seq<Range>, keys: seq<Range>, m: AttentionManifest)
    requires m.headDim > 0
    ensures HeadWork(queries, keys, m) == HeadMacs(queries, keys, m.headDim, Lanes(m.datatyp))
    decreases |queries|
  {
    if queries != [] {
      var n := |queries| - 1;
      HeadWorkPredicted(queries[..n], keys, m);
      HeadWorkSnoc(queries[..n], queries[n], keys, m);
      TileWorkPredicted(queries[n], keys, m);
      assert queries == queries[..n] + [queries[n]];
    }
  }

  /** For every model with positive dimensions and every prompt, each predicted bucket is
      the work of the generator it stands for. */
  lemma PredictionMatchesLayer(s: ModelSpec, prompt: int, activationTile: int)
    requires prompt > 0 && s.hidden > 0 && s.ffnHidden > 0
    requires ValidAttention(AttentionManifestOf(s, prompt))
    ensures Prediction(s, prompt) == PrefillLayerBuckets(AttentionManifestOf(s, prompt), FfnManifestOf(s, prompt, activationTile))
  {
    var a := AttentionManifestOf(s, prompt);
    var q, kv := s.heads * s.headDim, s.kvHeads * s.headDim;
    MulPositive(s.heads, s.headDim);
    MulPositive(s.kvHeads, s.headDim);
    ProjectionPredicted(prompt, q, s.hidden, s.datatyp);
    ProjectionPredicted(prompt, kv, s.hidden, s.datatyp);
    ProjectionPredicted(prompt, s.hidden, q, s.datatyp);
    ProjectionPredicted(prompt, s.ffnHidden, s.hidden, s.datatyp);
    HeadWorkPredicted(QueryTiles(a), KeyTiles(a), a);
    Reorder(prompt, q, s.hidden);
  }

  lemma ProjectionPredicted(m: int, n: int, k: int, d: Datatype)
    requires m >= 1 && n >= 1 && k >= 1
    ensures NumRequests(m * n * k, d) == CeilDiv(m * k * n, Lanes(d))
    ensures NumRequests(m * k * n, d) == CeilDiv(m * k * n, Lanes(d))
  {
    PositiveProduct(m, n, k);
    NoFloor(m * n * k, d);
    Reorder(m, n, k);
  }

  // ---- how tight the prediction is ----

  lemma {:induction false} KeyTotalSnoc(q: Range, keys: seq<Range>, key: Range)
    ensures KeyTotal(q, keys + [key]) == KeyTotal(q, keys) + CausalPairs(q, key)
    decreases |keys|
  {
    if keys == [] {
      assert [] + [key] == [key] && [key][1..] == [];
    } else {
      KeyTotalSnoc(q, keys[1..], key);
      assert (keys + [key])[1..] == keys[1..] + [key];
    }
  }

  lemma {:induction false} TileTotalSnoc(queries: seq<Range>, q: Range, keys: seq<Range>)
    ensures TileTotal(queries + [q], keys) == TileTotal(queries, keys) + KeyTotal(q, keys)
    decreases |queries|
  {
    if queries == [] {
      assert [] + [q] == [q] && [q][1..] == [];
    } else {
      TileTotalSnoc(queries[1..], q, keys);
      assert (queries + [q])[1..] == queries[1..] + [q];
    }
  }

  lemma PairBounds(pairs: int, headDim: int, lanes: int, total: int, macs: int, tiles: int)
    requires lanes > 0 && pairs >= 0 && headDim > 0
    requires 2 * headDim * total <= lanes * macs <= 2 * headDim * total + 2 * (lanes - 1) * tiles
    ensures var more := if pairs > 0 then 2 * CeilDiv(pairs * headDim, lanes) else 0;
      2 * headDim * (total + pairs) <= lanes * (macs + more) <= 2 * headDim * (total + pairs) + 2 * (lanes - 1) * (tiles + 1)
  {
    CeilDivBounds(pairs * headDim, lanes);
    var c := CeilDiv(pairs * headDim, lanes);
    assert lanes * (macs + 2 * c) == lanes * macs + 2 * (c * lanes);
    assert 2 * headDim * (total + pairs) == 2 * headDim * total + 2 * (pairs * headDim);
    assert 2 * (lanes - 1) * (tiles + 1) == 2 * (lanes - 1) * tiles + 2 * (lanes - 1);
  }

  lemma {:induction false} TileMacsBounds(q: Range, keys: seq<Range>, headDim: int, lanes: int)
    requires lanes > 0 && headDim > 0
    ensures 2 * headDim * KeyTotal(q, keys) <= lanes * TileMacs(q, keys, headDim, lanes)
      <= 2 * headDim * KeyTotal(q, keys) + 2 * (lanes - 1) * |keys|
    decreases |keys|
  {
    if keys != [] {
      var n := |keys| - 1;
      TileMacsBounds(q, keys[..n], headDim, lanes);
      assert keys == keys[..n] + [keys[n]];
      KeyTotalSnoc(q, keys[..n], keys[n]);
      PairBounds(CausalPairs(q, keys[n]), headDim, lanes, KeyTotal(q, keys[..n]), TileMacs(q, keys[..n], headDim, lanes), n);
    }
  }

  lemma AddBounds(a: int, b: int, c: int, d: int, headDim: int, lanes: int, n: int, width: int)
    requires 2 * headDim * a <= lanes * b <= 2 * headDim * a + 2 * (lanes - 1) * (n * width)
    requires 2 * headDim * c <= lanes * d <= 2 * headDim * c + 2 * (lanes - 1) * width
    ensures 2 * headDim * (a + c) <= lanes * (b + d) <= 2 * headDim * (a + c) + 2 * (lanes - 1) * ((n + 1) * width)
  {
    assert 2 * headDim * (a + c) == 2 * headDim * a + 2 * headDim * c;
    assert lanes * (b + d) == lanes * b + lanes * d;
    assert (n + 1) * width == n * width + width;
    assert 2 * (lanes - 1) * (n * width + width) == 2 * (lanes - 1) * (n * width) + 2 * (lanes - 1) * width;
  }

  lemma {:induction false} HeadMacsBounds(queries: seq<Range>, keys: seq<Range>, headDim: int, lanes: int)
    requires lanes > 0 && headDim > 0
    ensures 2 * headDim * TileTotal(queries, keys) <= lanes * HeadMacs(queries, keys, headDim, lanes)
      <= 2 * headDim * TileTotal(queries, keys) + 2 * (lanes - 1) * (|queries| * |keys|)
    decreases |queries|
  {
    if queries != [] {
      var n := |queries| - 1;
      HeadMacsBounds(queries[..n], keys, headDim, lanes);
      assert queries == queries[..n] + [queries[n]];
      TileTotalSnoc(queries[..n], queries[n], keys);
      TileMacsBounds(queries[n], keys, headDim, lanes);
      AddBounds(TileTotal(queries[..n], keys), HeadMacs(queries[..n], keys, headDim, lanes), KeyTotal(queries[n], keys),
                TileMacs(queries[n], keys, headDim, lanes), headDim, lanes, n, |keys|);
    }
  }

  /** The lanes of a head's predicted MACs cover every score and context product of the
      causal triangle, and idle lanes are fewer than two requests for each tile pair. */
  lemma PredictionCoversTriangle(prompt: int, queries: seq<Range>, keys: seq<Range>, headDim: int, lanes: int)
    requires lanes > 0 && headDim > 0 && Tiles(queries, 0, prompt) && Tiles(keys, 0, prompt)
    ensures 2 * headDim * (prompt * (prompt + 1) / 2) <= lanes * HeadMacs(queries, keys, headDim, lanes)
      <= 2 * headDim * (prompt * (prompt + 1) / 2) + 2 * (lanes - 1) * (|queries| * |keys|)
  {
    CausalTilingExact(queries, keys, prompt);
    HeadMacsBounds(queries, keys, headDim, lanes);
  }
}
