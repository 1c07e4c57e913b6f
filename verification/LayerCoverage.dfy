/** What the work of a decode layer amounts to: in every bucket the lanes of the requests
    cover exactly the products of the layer's matrices, with less than one request idle
    in each record. */
module LayerCoverage {
  import opened CausalTiling
  import opened DecodeAttention
  import opened Division
  import opened Ffn
  import opened TailMath
  import opened LayerParts
  import opened Layers
  import opened Manifests
  import opened Moe
  import opened PrefillFormula
  import opened Records
  import opened Relinking
  import opened Sequences

  /** Products of a matrix of `n` by `k` with the layer's tokens. */
  function MatrixProducts(tokens: int, n: int, k: int): int {
    tokens * n * k
  }

  lemma {:induction false} MatrixProductsPositive(tokens: int, n: int, k: int)
    requires tokens >= 1 && n >= 1 && k >= 1
    ensures MatrixProducts(tokens, n, k) >= 1
  {
    MulPositive(tokens, n);
    MulPositive(tokens * n, k);
  }

  lemma {:induction false} WorkCovers(d: Dims, n: int, k: int)
    requires d.seqLen >= 1 && n >= 1 && k >= 1
    ensures Covers(Work(d, n, k), MatrixProducts(d.seqLen, n, k), 1, d.datatyp)
  {
    MatrixProductsPositive(d.seqLen, n, k);
    RequestCovers(MatrixProducts(d.seqLen, n, k), d.datatyp);
  }

  /** The Q, K, V and O projections. */
  lemma {:induction false} ProjectionsCover(d: Dims)
    requires d.seqLen >= 1 && d.hidden >= 1 && d.qDim >= 1 && d.kvDim >= 1 && d.oDim >= 1
    ensures Covers(QkvRequests(d) + Work(d, d.hidden, d.oDim),
                   MatrixProducts(d.seqLen, d.qDim, d.hidden) + 2 * MatrixProducts(d.seqLen, d.kvDim, d.hidden)
                   + MatrixProducts(d.seqLen, d.hidden, d.oDim), 4, d.datatyp)
  {
    WorkCovers(d, d.qDim, d.hidden);
    WorkCovers(d, d.kvDim, d.hidden);
    WorkCovers(d, d.hidden, d.oDim);
    CoversTimes(2, Work(d, d.kvDim, d.hidden), MatrixProducts(d.seqLen, d.kvDim, d.hidden), 1, d.datatyp);
  }

  predicate AttentionCovered(requests: int, a: AttentionManifest)
    requires a.scoreTile > 0
  {
    Covers(requests, a.heads * (2 * (a.pastLen * a.headDim)), a.heads * (2 * CeilDiv(a.pastLen, a.scoreTile)), a.datatyp)
  }

  lemma {:induction false} AttentionCovers(a: AttentionManifest)
    requires ValidAttention(a) && a.phase.Decode?
    ensures AttentionCovered(a.heads * AttentionWork(a), a)
  {
    SomeTile(a.pastLen, a.scoreTile);
    PredictedTiles(a.pastLen, a.scoreTile);
    TileWorkCovers(PredictedRanges(a.pastLen, a.scoreTile), 0, a.pastLen, a);
    var w, e, n := Sum(DecodeWork(a)), a.pastLen * a.headDim, CeilDiv(a.pastLen, a.scoreTile);
    CoversTimes(2, w, e, n, a.datatyp);
    CoversTimes(a.heads, 2 * w, 2 * e, 2 * n, a.datatyp);
  }

  lemma {:induction false} FfnCovers(f: FfnManifest)
    requires ValidFfn(f)
    ensures var n := if f.variant.Relu2? then 2 else 3;
      Covers(ProjectionCount(f.variant) * ProjectionRequests(f), n * MatrixProducts(f.seqLen, f.hiddenSize, f.ffnHiddenSize), n, f.datatyp)
  {
    MatrixProductsPositive(f.seqLen, f.hiddenSize, f.ffnHiddenSize);
    RequestCovers(MatrixProducts(f.seqLen, f.hiddenSize, f.ffnHiddenSize), f.datatyp);
    CoversTimes(ProjectionCount(f.variant), ProjectionRequests(f), MatrixProducts(f.seqLen, f.hiddenSize, f.ffnHiddenSize), 1, f.datatyp);
  }

  /** The router over all experts, and three projections for each selected one. */
  lemma {:induction false} ExpertsCover(m: MoeManifest)
    requires ValidMoe(m)
    ensures Covers(MoeLayerRequests(m),
                   MatrixProducts(m.seqLen, m.experts, m.hiddenSize) + |m.selected| * (3 * MatrixProducts(m.seqLen, m.hiddenSize, m.expertHiddenSize)),
                   1 + |m.selected| * 3, m.datatyp)
  {
    var each := MatrixProducts(m.seqLen, m.hiddenSize, m.expertHiddenSize);
    MatrixProductsPositive(m.seqLen, m.experts, m.hiddenSize);
    MatrixProductsPositive(m.seqLen, m.hiddenSize, m.expertHiddenSize);
    RequestCovers(MatrixProducts(m.seqLen, m.experts, m.hiddenSize), m.datatyp);
    RequestCovers(each, m.datatyp);
    CoversTimes(3, ExpertRequests(m), each, 1, m.datatyp);
    CoversTimes(|m.selected|, 3 * ExpertRequests(m), 3 * each, 3, m.datatyp);
    CoversSum(RouterRequests(m), MatrixProducts(m.seqLen, m.experts, m.hiddenSize), 1,
              |m.selected| * (3 * ExpertRequests(m)), |m.selected| * (3 * each), |m.selected| * 3, m.datatyp);
  }

  // ---- whole traces ----

  /** Every layer of a generated dense decode trace. */
  lemma {:induction false} DenseDecodeCovers(rs: seq<Record>, a: AttentionManifest, f: FfnManifest, l: nat)
    requires ValidAttention(a) && a.phase.Decode? && ValidFfn(f) && DenseSupported(a, f) && l < a.layers
    requires Complete(rs, a.layers, DecodeTerminals(a), DecodeLayerWork(a, DenseTail(f), DenseDims(a, f)), false)
    ensures var w, q, kv, n := WorkOf(OfLayer(rs, l)), a.heads * a.headDim, a.kvHeads * a.headDim, if f.variant.Relu2? then 2 else 3;
      && Covers(w.qkvo, MatrixProducts(f.seqLen, q, f.hiddenSize) + 2 * MatrixProducts(f.seqLen, kv, f.hiddenSize)
                        + MatrixProducts(f.seqLen, f.hiddenSize, q), 4, f.datatyp)
      && AttentionCovered(w.attention, a)
      && Covers(w.ffn, n * MatrixProducts(f.seqLen, f.hiddenSize, f.ffnHiddenSize), n, f.datatyp)
      && w.experts == 0
  {
    MulPositive(a.heads, a.headDim);
    MulPositive(a.kvHeads, a.headDim);
    ProjectionsCover(DenseDims(a, f));
    AttentionCovers(a);
    FfnCovers(f);
    assert LayerDelivered(rs, l, DecodeTerminals(a), DecodeLayerWork(a, DenseTail(f), DenseDims(a, f)));
  }

  /** Every layer of a generated mixture-of-experts decode trace. */
  lemma {:induction false} ExpertDecodeCovers(rs: seq<Record>, a: AttentionManifest, m: MoeManifest, l: nat)
    requires ValidAttention(a) && a.phase.Decode? && ValidMoe(m) && l < a.layers
    requires Complete(rs, a.layers, DecodeTerminals(a), DecodeLayerWork(a, ExpertTail(m), ExpertDims(a, m)), false)
    ensures var w, kv := WorkOf(OfLayer(rs, l)), a.kvHeads * a.headDim;
      && Covers(w.qkvo, MatrixProducts(m.seqLen, m.hiddenSize, m.hiddenSize) + 2 * MatrixProducts(m.seqLen, kv, m.hiddenSize)
                        + MatrixProducts(m.seqLen, m.hiddenSize, m.hiddenSize), 4, m.datatyp)
      && AttentionCovered(w.attention, a)
      && w.ffn == 0
      && Covers(w.experts, MatrixProducts(m.seqLen, m.experts, m.hiddenSize)
                           + |m.selected| * (3 * MatrixProducts(m.seqLen, m.hiddenSize, m.expertHiddenSize)), 1 + |m.selected| * 3, m.datatyp)
  {
    MulPositive(a.kvHeads, a.headDim);
    ProjectionsCover(ExpertDims(a, m));
    AttentionCovers(a);
    ExpertsCover(m);
    assert LayerDelivered(rs, l, DecodeTerminals(a), DecodeLayerWork(a, ExpertTail(m), ExpertDims(a, m)));
  }
}
