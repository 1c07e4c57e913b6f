/** Workload records and what makes a list of them a well-formed dependency graph. */
module Records {
  import opened Results

  datatype Projection = Up | Gate | Down

  /** Tensor names.  The suffixes `.resident`, `.pim_visible`, `.bank_local` and
      `.materialized` that the generators append are constructors here. */
  datatype Name =
    | Hidden | Query | Key | Value | AttentionContextInput | AttentionOutput
    | ProjectionWeight(op: Op)
    | HeadQuery(head: nat)
    | HeadQueryTile(head: nat, tile: nat)
    | CacheTile(head: nat, tile: nat, isKey: bool)
    | PromptTile(head: nat, isKey: bool, tile: nat)
    | ScorePart(head: nat, query: Option<nat>, tile: nat)
    | ProbabilityPart(head: nat, query: Option<nat>, tile: nat)
    | ContextPart(head: nat, query: Option<nat>, tile: nat)
    | ReducedContext(head: nat, query: Option<nat>)
    | CachedToken(isKey: bool)
    | CachedPrompt(isKey: bool)
    | HiddenTile(tile: nat) | HiddenReused | HiddenOut
    | FfnWeight(projection: Projection)
    | FfnIntermediate(projection: Projection)
    | FfnActivated | FfnProduct
    | RouterInput | RouterWeight | RouterLogits | TopkExperts | DispatchAccounted | Dispatched
    | ExpertWeight(expert: nat, projection: Projection)
    | ExpertIntermediate(expert: nat, projection: Projection)
    | ExpertActivated(expert: nat) | ExpertGated(expert: nat)
    | CombinedExperts
    | Resident(of: Name) | Visible(of: Name) | BankLocal(of: Name) | Materialized(of: Name)

  datatype Tensor = Tensor(layer: nat, name: Name)

  datatype RecordKind =
    | HostRead | HostWrite
    | AttentionScore | AttentionSoftmax | AttentionContext
    | FFNProjection
    | PIMOperandResidency | PIMOperandReuse | PIMDataMove | PIMElementwise
    | MoERouter | MoETopK | MoEDispatch | MoEExpertFFN | MoECombine
    | Barrier | Drain

  datatype Op =
    | LayerStart | LayerTransition | FinalDrain
    | QProjection | KProjection | VProjection | OProjection
    | KvCacheAppend(isKey: bool) | KvCachePrefill(isKey: bool) | KvCacheTileRead(isKey: bool)
    | QOperandResidency | PrefillTileResidency(isKey: bool) | ProbabilityResidency
    | ScoreOp | SoftmaxOp | ContextOp | ContextReduction
    | HiddenTileSetup | FfnWeightResidency(projection: Projection) | HiddenReuse
    | FfnProjectionOp(projection: Projection) | FfnIntermediateResidency(projection: Projection)
    | FfnActivation | FfnActivatedResidency | FfnGatedMultiply | FfnBankLocalResidency
    | RouterInputSetup | RouterWeightResidency | RouterProjection | RouterLogitsResidency
    | TopkSelect | ExpertDispatch | TokenDispatch
    | ExpertWeightResidency(expert: nat, projection: Projection)
    | ExpertActivation(expert: nat) | ExpertGatedMultiply(expert: nat)
    | ExpertIntermediateResidency(expert: nat)
    | ExpertProjection(expert: nat, projection: Projection)
    | ExpertOutputResidency(expert: nat)
    | ExpertCombine | ExpertCombineMove

  /** `rec_{id:04d}` is written as the number it prints. */
  datatype Record = Record(
    id: int,
    kind: RecordKind,
    layer: nat,
    op: Op,
    inputs: seq<Tensor>,
    outputs: seq<Tensor>,
    deps: seq<int>,
    requests: int)

  // ---- where a tensor may come from ----

  /** Never produced inside a trace: layer inputs, weights and cached K/V tiles. */
  predicate Leaf(n: Name) {
    n.Hidden? || n.ProjectionWeight? || n.FfnWeight? || n.ExpertWeight? || n.RouterWeight? || n.CacheTile?
  }

  /** Inputs that a block generator leaves open for the layer assembly to connect. */
  predicate Port(n: Name) {
    n.Key? || n.Value? || n.HeadQuery? || n.HeadQueryTile? || n.PromptTile?
    || n.AttentionContextInput? || n.HiddenTile?
  }

  predicate QueryOperand(n: Name) {
    n.Visible? && (n.of.HeadQuery? || n.of.HeadQueryTile?)
  }

  // ---- graphs ----

  /** Outputs of the records seen so far, by record id. */
  type Outputs = map<int, seq<Tensor>>

  ghost predicate Supplies(env: Outputs, d: int, t: Tensor) {
    d in env && t in env[d]
  }

  ghost predicate Plain(env: Outputs, d: int) {
    d in env && forall t :: t in env[d] ==> !QueryOperand(t.name)
  }

  ghost predicate Fed(env: Outputs, deps: seq<int>, t: Tensor, ports: bool) {
    || Leaf(t.name)
    || (ports && Port(t.name))
    || exists d {:trigger Supplies(env, d, t)} :: d in deps && Supplies(env, d, t)
  }

  /** `r` may follow the records of `env`: its id is new and larger than theirs, it
      depends on earlier records only, and every tensor it reads is either external
      or an output of a record it depends on. Query operands feed scores only. */
  ghost predicate Follows(env: Outputs, r: Record, ports: bool) {
    && (forall k :: k in env ==> k < r.id)
    && (forall d :: d in r.deps ==> d in env)
    && (forall t :: t in r.inputs ==> Fed(env, r.deps, t, ports))
    && (forall t :: t in r.outputs ==> !Leaf(t.name))
    && (r.kind.AttentionScore? || forall d :: d in r.deps ==> Plain(env, d))
  }

  ghost function After(env: Outputs, rs: seq<Record>): Outputs
    decreases |rs|
  {
    if rs == [] then env else After(env[rs[0].id := rs[0].outputs], rs[1..])
  }

  ghost predicate Sound(env: Outputs, rs: seq<Record>, ports: bool)
    decreases |rs|
  {
    rs == [] || (Follows(env, rs[0], ports) && Sound(env[rs[0].id := rs[0].outputs], rs[1..], ports))
  }

  lemma {:induction false} Concat(env: Outputs, a: seq<Record>, b: seq<Record>, ports: bool)
    ensures Sound(env, a + b, ports) <==> Sound(env, a, ports) && Sound(After(env, a), b, ports)
    ensures After(env, a + b) == After(After(env, a), b)
    decreases |a|
  {
    if a == [] {
      assert a + b == b;
    } else {
      assert (a + b)[1..] == a[1..] + b;
      Concat(env[a[0].id := a[0].outputs], a[1..], b, ports);
    }
  }

  lemma Append(env: Outputs, rs: seq<Record>, r: Record, ports: bool)
    requires Sound(env, rs, ports) && Follows(After(env, rs), r, ports)
    ensures Sound(env, rs + [r], ports)
    ensures After(env, rs + [r]) == After(env, rs)[r.id := r.outputs]
  {
    Concat(env, rs, [r], ports);
    assert [r][1..] == [];
  }

  // ---- what soundness says about a whole trace ----

  /** Ids increase, so no two records share one. */
  ghost predicate IdsIncrease(rs: seq<Record>) {
    forall i, j :: 0 <= i < j < |rs| ==> rs[i].id < rs[j].id
  }

  ghost predicate NamesEarlier(rs: seq<Record>, i: nat, d: int)
    requires i < |rs|
  {
    exists j :: 0 <= j < i && rs[j].id == d
  }

  /** Every logical dependency names an earlier record. */
  ghost predicate DepsEarlier(rs: seq<Record>) {
    forall i, d :: 0 <= i < |rs| && d in rs[i].deps ==> NamesEarlier(rs, i, d)
  }

  ghost predicate ProducedByDependency(rs: seq<Record>, i: nat, t: Tensor)
    requires i < |rs|
  {
    exists j :: 0 <= j < i && rs[j].id in rs[i].deps && t in rs[j].outputs
  }

  /** Every tensor a record reads is an output of one of its dependencies, unless no
      record of the whole trace ever produces it. */
  ghost predicate InputsProduced(rs: seq<Record>) {
    forall i, t :: 0 <= i < |rs| && t in rs[i].inputs ==>
      ProducedByDependency(rs, i, t) || NeverProduced(rs, t)
  }

  ghost predicate NeverProduced(rs: seq<Record>, t: Tensor) {
    forall j :: 0 <= j < |rs| ==> t !in rs[j].outputs
  }

  lemma {:induction false} AfterHolds(env: Outputs, rs: seq<Record>, k: int)
    requires k in After(env, rs)
    ensures k in env || exists j :: 0 <= j < |rs| && rs[j].id == k
    ensures (exists j :: 0 <= j < |rs| && rs[j].id == k && rs[j].outputs == After(env, rs)[k])
         || (k in env && After(env, rs)[k] == env[k])
    decreases |rs|
  {
    if rs != [] {
      AfterHolds(env[rs[0].id := rs[0].outputs], rs[1..], k);
      if j :| 0 <= j < |rs[1..]| && rs[1..][j].id == k && rs[1..][j].outputs == After(env, rs)[k] {
        assert rs[j + 1].id == k && rs[j + 1].outputs == After(env, rs)[k];
      } else {
        assert k == rs[0].id ==> rs[0].outputs == After(env, rs)[k];
      }
    }
  }

  lemma SoundAt(env: Outputs, rs: seq<Record>, i: nat, ports: bool)
    requires Sound(env, rs, ports) && i < |rs|
    ensures Follows(After(env, rs[..i]), rs[i], ports)
  {
    Concat(env, rs[..i], rs[i..], ports);
    assert rs[..i] + rs[i..] == rs;
  }

  lemma {:induction false} InAfter(env: Outputs, rs: seq<Record>, k: int)
    requires k in env || exists j :: 0 <= j < |rs| && rs[j].id == k
    ensures k in After(env, rs)
    decreases |rs|
  {
    if rs != [] {
      var next := env[rs[0].id := rs[0].outputs];
      if j :| 0 <= j < |rs| && rs[j].id == k {
        assert j > 0 ==> rs[1..][j - 1].id == k;
      }
      InAfter(next, rs[1..], k);
    }
  }

  lemma SoundIncreases(rs: seq<Record>, ports: bool)
    requires Sound(map[], rs, ports)
    ensures IdsIncrease(rs)
  {
    forall i, j | 0 <= i < j < |rs|
      ensures rs[i].id < rs[j].id
    {
      SoundAt(map[], rs, j, ports);
      assert rs[..j][i].id == rs[i].id;
      InAfter(map[], rs[..j], rs[i].id);
    }
  }

  /** A sound trace is topologically ordered: ids increase, and dependencies name
      earlier records. */
  lemma SoundTraceIsOrdered(rs: seq<Record>, ports: bool)
    requires Sound(map[], rs, ports)
    ensures IdsIncrease(rs) && DepsEarlier(rs)
  {
    SoundIncreases(rs, ports);
    forall i, d | 0 <= i < |rs| && d in rs[i].deps
      ensures NamesEarlier(rs, i, d)
    {
      SoundAt(map[], rs, i, ports);
      AfterHolds(map[], rs[..i], d);
      var j :| 0 <= j < i && rs[..i][j].id == d;
      assert rs[j].id == d;
    }
  }

  /** Its edges carry the data: what a record reads comes from its dependencies. */
  lemma SoundTraceCarriesData(rs: seq<Record>)
    requires Sound(map[], rs, false)
    ensures InputsProduced(rs)
  {
    forall i, t | 0 <= i < |rs| && t in rs[i].inputs
      ensures ProducedByDependency(rs, i, t) || NeverProduced(rs, t)
    {
      SoundAt(map[], rs, i, false);
      var env := After(map[], rs[..i]);
      assert Fed(env, rs[i].deps, t, false);
      if Leaf(t.name) {
        forall j | 0 <= j < |rs| ensures t !in rs[j].outputs {
          SoundAt(map[], rs, j, false);
        }
      } else {
        var d :| d in rs[i].deps && Supplies(env, d, t);
        AfterHolds(map[], rs[..i], d);
        var j :| 0 <= j < i && rs[..i][j].id == d && rs[..i][j].outputs == env[d];
        assert rs[j].id in rs[i].deps && t in rs[j].outputs;
      }
    }
  }
}
