/** Workload manifests, their numeric validation, and the record builders shared by
    the block generators. */
module Manifests {
  import opened DataFlow
  import opened Division
  import opened Records
  import opened Relinking

  datatype Phase = Decode | Prefill

  datatype Datatype = Int8 | Fp16 | Bf16

  datatype Variant = Swiglu3 | Geglu3 | Relu2

  datatype AttentionManifest = AttentionManifest(
    phase: Phase, layers: int, heads: int, kvHeads: int, headDim: int, pastLen: int, seqLen: int,
    hiddenSize: int, datatyp: Datatype, scoreTile: int, contextTile: int, overlapHeads: bool)

  datatype FfnManifest = FfnManifest(
    phase: Phase, layers: int, seqLen: int, hiddenSize: int, ffnHiddenSize: int,
    activationTile: int, datatyp: Datatype, variant: Variant)

  datatype MoeManifest = MoeManifest(
    layers: int, seqLen: int, hiddenSize: int, expertHiddenSize: int, experts: int, topK: int,
    selected: seq<int>, datatyp: Datatype, overlapExperts: bool)

  /** `_attention_num_kv_heads` and `_attention_head_group_size` accept the manifest. */
  predicate ValidHeads(m: AttentionManifest) {
    0 < m.kvHeads <= m.heads && Rem(m.heads, m.kvHeads) == 0
  }

  /** The numeric checks of `_validate_attention_manifest`. */
  predicate ValidAttention(m: AttentionManifest) {
    && (m.phase.Prefill? ==> !m.overlapHeads)
    && m.layers > 0 && m.heads > 0 && m.headDim > 0 && m.seqLen > 0
    && m.scoreTile > 0 && m.contextTile > 0 && m.pastLen >= 0
    && ValidHeads(m)
    && (m.overlapHeads ==> m.heads >= 2)
    && m.contextTile == m.scoreTile
    && (m.phase.Decode? ==> m.pastLen > 0)
    && (m.phase.Prefill? ==> m.pastLen == 0 && m.scoreTile <= m.seqLen)
  }

  predicate ValidFfn(m: FfnManifest) {
    m.layers > 0 && m.seqLen > 0 && m.hiddenSize > 0 && m.ffnHiddenSize > 0
    && 0 < m.activationTile <= m.hiddenSize
  }

  predicate ValidMoe(m: MoeManifest) {
    && m.layers > 0 && m.seqLen > 0 && m.hiddenSize > 0 && m.expertHiddenSize > 0
    && 0 < m.topK <= m.experts
    && (m.overlapExperts ==> m.topK >= 2)
    && |m.selected| == m.topK
    && (forall i, j :: 0 <= i < j < |m.selected| ==> m.selected[i] != m.selected[j])
    && (forall e <- m.selected :: 0 <= e < m.experts)
  }

  function Lanes(d: Datatype): (lanes: int)
    ensures lanes > 0
  {
    if d.Int8? then 32 else 16
  }

  function NumRequests(elements: int, d: Datatype): int {
    Max(1, CeilDiv(elements, Lanes(d)))
  }

  /** The lanes of `requests` requests cover `elements` products, and fewer than a whole
      request is idle in each of `records` records. */
  predicate Covers(requests: int, elements: int, records: int, d: Datatype) {
    elements <= Lanes(d) * requests <= elements + (Lanes(d) - 1) * records
  }

  lemma {:induction false} RequestCovers(elements: int, d: Datatype)
    requires elements >= 1
    ensures Covers(NumRequests(elements, d), elements, 1, d)
  {
    CeilDivBounds(elements, Lanes(d));
  }

  lemma {:induction false} CoversSum(r: int, e: int, n: int, r2: int, e2: int, n2: int, d: Datatype)
    requires Covers(r, e, n, d) && Covers(r2, e2, n2, d)
    ensures Covers(r + r2, e + e2, n + n2, d)
  {
  }

  lemma {:induction false} CoversTimes(k: int, r: int, e: int, n: int, d: Datatype)
    requires k >= 0 && Covers(r, e, n, d)
    ensures Covers(k * r, k * e, k * n, d)
  {
    MulMonotone(e, Lanes(d) * r, k);
    MulMonotone(Lanes(d) * r, e + (Lanes(d) - 1) * n, k);
    assert e * k == k * e && (Lanes(d) * r) * k == Lanes(d) * (k * r);
    assert (e + (Lanes(d) - 1) * n) * k == k * e + (Lanes(d) - 1) * (k * n);
  }

  // ---- blocks ----

  /** How many layers a block covers, and whether it may hold tiles (hidden activation
      tiles, prompt tiles) whose source the layer assembly connects. */
  datatype Scope = Scope(layers: int, tiles: bool)

  /** A block generator's output so far: records numbered from zero, sound on their
      own except for the ports the layer assembly connects. */
  ghost predicate Block(rs: seq<Record>) {
    Numbered(rs) && Sound(map[], rs, true) && forall k :: k in Env(rs) <==> 0 <= k < |rs|
  }

  ghost function Env(rs: seq<Record>): Outputs {
    After(map[], rs)
  }

  lemma {:induction false} EmptyBlock()
    ensures Block([]) && Env([]) == map[]
    ensures Requests([]) == 0 && Consumed([]) == [] && Contexts([]) == [] && Reductions([]) == []
  {
  }

  /** Record `id` of the block supplies `t`, and no query operand. */
  ghost predicate Has(rs: seq<Record>, id: int, t: Tensor) {
    Plain(Env(rs), id) && Supplies(Env(rs), id, t)
  }

  ghost predicate Keeps(before: seq<Record>, after: seq<Record>) {
    forall id, t {:trigger Has(after, id, t)} :: Has(before, id, t) ==> Has(after, id, t)
  }

  /** Record `id` of the block supplies `t`, computed as `e`. */
  ghost predicate Holds(rs: seq<Record>, id: int, t: Tensor, e: Math) {
    Has(rs, id, t) && 0 <= id < |rs| && Means(rs, id, t, e)
  }

  ghost predicate KeepsValues(before: seq<Record>, after: seq<Record>) {
    forall id, t, e {:trigger Holds(after, id, t, e)} :: Holds(before, id, t, e) ==> Holds(after, id, t, e)
  }

  lemma {:induction false} ValuesKept(before: seq<Record>, after: seq<Record>)
    requires Keeps(before, after) && before <= after
    ensures KeepsValues(before, after)
  {
    forall id, t, e | Holds(before, id, t, e)
      ensures Holds(after, id, t, e)
    {
      MeansMore(before, after, id, t, e);
    }
  }

  /** The products `names` of the records `ids`. */
  ghost function Products(layer: nat, ids: seq<int>, names: seq<Name>): set<Product>
    requires |ids| == |names|
  {
    set j | 0 <= j < |ids| :: (ids[j], Tensor(layer, names[j]))
  }

  /** Record `id` supplies `t`, which may be a query operand. */
  ghost predicate HasQuery(rs: seq<Record>, id: int, t: Tensor) {
    Supplies(Env(rs), id, t)
  }

  ghost predicate KeepsQueries(before: seq<Record>, after: seq<Record>) {
    forall id, t {:trigger HasQuery(after, id, t)} :: HasQuery(before, id, t) ==> HasQuery(after, id, t)
  }

  ghost predicate HoldsQuery(rs: seq<Record>, id: int, t: Tensor, e: Math) {
    HasQuery(rs, id, t) && 0 <= id < |rs| && Means(rs, id, t, e)
  }

  ghost predicate KeepsQueryValues(before: seq<Record>, after: seq<Record>) {
    forall id, t, e {:trigger HoldsQuery(after, id, t, e)} :: HoldsQuery(before, id, t, e) ==> HoldsQuery(after, id, t, e)
  }

  lemma {:induction false} QueryValuesKept(before: seq<Record>, after: seq<Record>)
    requires KeepsQueries(before, after) && before <= after
    ensures KeepsQueryValues(before, after)
  {
    forall id, t, e | HoldsQuery(before, id, t, e)
      ensures HoldsQuery(after, id, t, e)
    {
      MeansMore(before, after, id, t, e);
    }
  }

  /** Appending a record that follows the block keeps it a block and only adds to
      what earlier records supply. */
  lemma {:induction false} Emit(rs: seq<Record>, r: Record)
    requires Block(rs) && r.id == |rs| && Follows(Env(rs), r, true)
    ensures Block(rs + [r]) && Keeps(rs, rs + [r]) && KeepsQueries(rs, rs + [r])
    ensures forall t :: t in r.outputs ==> Supplies(Env(rs + [r]), r.id, t)
    ensures (forall t :: t in r.outputs ==> !QueryOperand(t.name)) ==> Plain(Env(rs + [r]), r.id)
    ensures Requests(rs + [r]) == Requests(rs) + MacRequests(r)
  {
    Append(map[], rs, r, true);
    TotalAppend(MacRequests, rs, r);
  }
}
