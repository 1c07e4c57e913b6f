/** What one layer of a trace computes, as a whole: its attention, collected by the output
    projection, and the block after it. */
module LayerMath {
  import opened Assembly
  import opened Attention
  import opened AttentionMath
  import opened DataFlow
  import opened DecodeAttention
  import opened DecodeScores
  import opened Delivery
  import opened Division
  import opened Manifests
  import opened OutputParts
  import opened PrefillAttention
  import opened Records
  import opened Relinking
  import opened TailMath

  // ---- the output projection ----

  function OutputMath(args: seq<Math>): Math {
    Computed(OProjection, args + [Given(ProjectionWeight(OProjection))])
  }

  /** The record reads `t`, and finds `e` there. */
  ghost predicate ReadsAs(r: Record, args: seq<Math>, t: Tensor, e: Math)
    requires |args| <= |r.inputs|
  {
    exists m :: 0 <= m < |args| && r.inputs[m] == t && args[m] == e
  }

  /** Record `i` is the layer's output projection: of the attention of every part. */
  ghost predicate CollectsAt(rs: seq<Record>, i: nat, o: int, layer: nat, parts: set<Part>, args: seq<Math>) {
    && i < |rs| && rs[i].id == o && rs[i].op == OProjection && rs[i].layer == layer && |rs[i].inputs| == |args| + 1
    && forall p <- parts :: ReadsAs(rs[i], args, Tensor(layer, p.EndName()), InLayer(p))
  }

  ghost predicate Collects(rs: seq<Record>, o: int, layer: nat, parts: set<Part>, args: seq<Math>) {
    && Means(rs, o, Tensor(layer, AttentionOutput), OutputMath(args))
    && exists i: nat :: CollectsAt(rs, i, o, layer, parts, args)
  }

  /** Parts differ in where they end. */
  ghost predicate EndsApart(parts: set<Part>) {
    forall a, b :: a in parts && b in parts && a.EndName() == b.EndName() ==> a == b
  }

  /** What the output projection reads as `t`: the attention of a part, if that is its
      end. */
  ghost predicate Suits(rs: seq<Record>, o: Record, layer: nat, parts: set<Part>, t: Tensor, e: Math) {
    Finds(rs, o.id, o.deps, t, e) && forall p <- parts :: t == Tensor(layer, p.EndName()) ==> e == InLayer(p)
  }

  ghost predicate Suitable(rs: seq<Record>, o: Record, layer: nat, parts: set<Part>, t: Tensor) {
    exists e :: Suits(rs, o, layer, parts, t, e)
  }

  ghost function SuitableValue(rs: seq<Record>, o: Record, layer: nat, parts: set<Part>, t: Tensor): (e: Math)
    requires Suitable(rs, o, layer, parts, t)
    ensures Suits(rs, o, layer, parts, t, e)
  {
    var e :| Suits(rs, o, layer, parts, t, e); e
  }

  lemma {:induction false} MeansRecord(rs: seq<Record>, id: int, t: Tensor, e: Math) returns (i: nat)
    requires Means(rs, id, t, e)
    ensures i < |rs| && rs[i].id == id && t in rs[i].outputs
  {
    var n: nat, k: nat, args :| Computes(rs, id, n, k, t, args) && e == Outcome(rs[n].kind, rs[n].op, k, args);
    i := n;
  }

  lemma {:induction false} TerminalRecord(part: seq<Record>, x: int) returns (i: nat)
    requires x in TerminalIds(part)
    ensures i < |part| && part[i].id == x
  {
    if x in Reductions(part) {
      ReductionsFrom(part, x);
      var n :| 0 <= n < |part| && part[n].id == x && IsReduction(part[n]);
      i := n;
    } else {
      ContextsFrom(part, x);
      var n :| 0 <= n < |part| && part[n].id == x && part[n].kind.AttentionContext?;
      i := n;
    }
  }

  lemma {:induction false} OutputInput(rs: seq<Record>, part: seq<Record>, o: Record, layer: nat, parts: set<Part>, t: Tensor, next: int, ports: bool)
    requires Trace(rs + part, next, ports) && o.id == next && o.deps == TerminalIds(part)
    requires Attends(rs + part, part, layer, parts) && EndsApart(parts) && TerminalOutput(part, t)
    ensures Suitable(rs + part, o, layer, parts, t)
  {
    var all := rs + part;
    TraceIsNatural(all, next, ports);
    if p :| p in parts && t == Tensor(layer, p.EndName()) {
      assert AttendsTo(all, part, layer, p);
      var end :| end in TerminalIds(part) && Means(all, end, t, InLayer(p));
      var i := MeansRecord(all, end, t, InLayer(p));
      assert Suits(all, o, layer, parts, t, InLayer(p));
    } else {
      var i: nat :| i < |part| && part[i].id in TerminalIds(part) && t in part[i].outputs;
      assert all[|rs| + i] == part[i];
      EveryOutputValued(all, |rs| + i, t, ports);
      var e :| Means(all, part[i].id, t, e);
      assert Suits(all, o, layer, parts, t, e);
    }
  }

  /** Every part's end is among what the output projection reads. */
  lemma {:induction false} EndIsInput(rs: seq<Record>, part: seq<Record>, layer: nat, p: Part, next: int, ports: bool)
    requires Trace(rs + part, next, ports) && AttendsTo(rs + part, part, layer, p)
    ensures TerminalOutput(part, Tensor(layer, p.EndName()))
  {
    var all, t := rs + part, Tensor(layer, p.EndName());
    SoundIncreases(all, ports);
    var end :| end in TerminalIds(part) && Means(all, end, t, InLayer(p));
    var i := MeansRecord(all, end, t, InLayer(p));
    var j := TerminalRecord(part, end);
    assert all[|rs| + j] == part[j];
    assert i == |rs| + j;
  }

  /** The output projection computes from every part's attention. */
  lemma {:induction false} OutputCollects(rs: seq<Record>, part: seq<Record>, o: Record, layer: nat, parts: set<Part>, next: int, ports: bool)
      returns (args: seq<Math>)
    requires Trace(rs + part, next, ports) && o.id == next && Gathers(part, o, layer) && o.layer == layer
    requires Attends(rs + part, part, layer, parts) && EndsApart(parts)
    ensures Collects(rs + part + [o], o.id, layer, parts, args)
  {
    var all, n := rs + part, |o.inputs| - 1;
    forall m: nat | m < n ensures Suitable(all, o, layer, parts, o.inputs[m]) {
      assert o.inputs[..n][m] == o.inputs[m];
      OutputInput(rs, part, o, layer, parts, o.inputs[m], next, ports);
    }
    args := seq(n, m requires 0 <= m < n => SuitableValue(all, o, layer, parts, o.inputs[m]));
    OutputReads(rs, part, o, layer, parts, args, next, ports);
    SnocMeans(all, o, 0, args + [Given(ProjectionWeight(OProjection))]);
    assert (all + [o])[|all|] == o;
    assert CollectsAt(all + [o], |all|, o.id, layer, parts, args);
  }

  lemma {:induction false} OutputReads(rs: seq<Record>, part: seq<Record>, o: Record, layer: nat, parts: set<Part>, args: seq<Math>, next: int, ports: bool)
    requires Trace(rs + part, next, ports) && Gathers(part, o, layer) && Attends(rs + part, part, layer, parts)
    requires |args| == |o.inputs| - 1 && forall m :: 0 <= m < |args| ==> Suits(rs + part, o, layer, parts, o.inputs[m], args[m])
    ensures forall p <- parts :: ReadsAs(o, args, Tensor(layer, p.EndName()), InLayer(p))
  {
    forall p | p in parts ensures ReadsAs(o, args, Tensor(layer, p.EndName()), InLayer(p)) {
      assert AttendsTo(rs + part, part, layer, p);
      EndIsInput(rs, part, layer, p, next, ports);
      var t := Tensor(layer, p.EndName());
      assert t in o.inputs[..|args|];
      var m :| 0 <= m < |args| && o.inputs[..|args|][m] == t;
      assert Suits(rs + part, o, layer, parts, o.inputs[m], args[m]);
    }
  }

  // ---- a layer ----

  /** The layer's last tensor is what the block after attention makes of the output
      projection of every part's attention; and its record waits for the projection. */
  ghost predicate LayerComputes(rs: seq<Record>, layer: nat, parts: set<Part>, t: LayerTail) {
    exists o, end, args :: Collects(rs, o, layer, parts, args) && Concludes(rs, o, end, layer, t, OutputMath(args))
  }

  ghost predicate Concludes(rs: seq<Record>, o: int, end: int, layer: nat, t: LayerTail, x: Math) {
    Means(rs, end, Tensor(layer, t.Output()), t.Of(x)) && Reaches(rs, end, o)
  }

  lemma {:induction false} DependsMore(rs: seq<Record>, more: seq<Record>)
    requires rs <= more
    ensures forall x, y :: DependsOn(rs, x, y) ==> DependsOn(more, x, y)
  {
    forall x, y | DependsOn(rs, x, y) ensures DependsOn(more, x, y) {
      var i :| 0 <= i < |rs| && rs[i].id == x && y in rs[i].deps;
      assert more[i] == rs[i];
    }
  }

  lemma {:induction false} CollectsMore(rs: seq<Record>, more: seq<Record>, o: int, layer: nat, parts: set<Part>, args: seq<Math>)
    requires rs <= more && Collects(rs, o, layer, parts, args)
    ensures Collects(more, o, layer, parts, args)
  {
    MeansMore(rs, more, o, Tensor(layer, AttentionOutput), OutputMath(args));
    var i: nat :| CollectsAt(rs, i, o, layer, parts, args);
    assert CollectsAt(more, i, o, layer, parts, args);
  }

  /** Later records change nothing of it. */
  lemma {:induction false} LayerComputesMore(rs: seq<Record>, more: seq<Record>, layer: nat, parts: set<Part>, t: LayerTail)
    requires rs <= more && LayerComputes(rs, layer, parts, t)
    ensures LayerComputes(more, layer, parts, t)
  {
    var o, end, args :| Collects(rs, o, layer, parts, args) && Concludes(rs, o, end, layer, t, OutputMath(args));
    CollectsMore(rs, more, o, layer, parts, args);
    MeansMore(rs, more, end, Tensor(layer, t.Output()), t.Of(OutputMath(args)));
    DependsMore(rs, more);
    ReachesMore(rs, more, end, o);
    assert Concludes(more, o, end, layer, t, OutputMath(args));
  }

  /** Attention, the output projection and the block after it make a layer. */
  lemma {:induction false} LayerConcludes(rs: seq<Record>, part: seq<Record>, o: Record, block: seq<Record>, tail: seq<Record>, layer: nat,
                                          parts: set<Part>, t: LayerTail, end: int, n2: int, n3: int, ports: bool)
    requires Trace(rs + part, n2, ports) && o.id == n2 < n3 && Gathers(part, o, layer) && o.layer == layer
    requires Attends(rs + part, part, layer, parts) && EndsApart(parts)
    requires TailComputes(block, end, t) && TailPlaced(block, tail, n3, layer, o.id, t)
    ensures LayerComputes(rs + part + [o] + tail, layer, parts, t)
  {
    var args := OutputCollects(rs, part, o, layer, parts, n2, ports);
    var all := rs + part + [o];
    TailMeans(all, block, tail, n3, layer, o.id, t, OutputMath(args), end);
    TailWaits(all, block, tail, n3, layer, o.id, t, end);
    CollectsMore(all, all + tail, o.id, layer, parts, args);
    assert Concludes(all + tail, o.id, end + n3, layer, t, OutputMath(args));
  }

  // ---- the first layers of a trace ----

  /** Every layer computes; in a decode trace its cache is up to date when it is read. */
  ghost predicate Computing(rs: seq<Record>, layers: int, parts: set<Part>, t: LayerTail, decode: bool) {
    forall l: nat :: l < layers ==> LayerComputes(rs, l, parts, t) && (decode ==> CacheCurrent(rs, l))
  }

  /** So the record of a layer's last tensor waits, through dependencies, for the layer's
      output projection. */
  lemma {:induction false} LastWaitsForOutput(rs: seq<Record>, layers: int, parts: set<Part>, t: LayerTail, decode: bool, l: nat)
      returns (last: nat, o: nat)
    requires Computing(rs, layers, parts, t, decode) && l < layers
    ensures last < |rs| && Tensor(l, t.Output()) in rs[last].outputs
    ensures o < |rs| && rs[o].op == OProjection && rs[o].layer == l
    ensures Reaches(rs, rs[last].id, rs[o].id)
  {
    assert LayerComputes(rs, l, parts, t);
    var id, end, args :| Collects(rs, id, l, parts, args) && Concludes(rs, id, end, l, t, OutputMath(args));
    last := MeansRecord(rs, end, Tensor(l, t.Output()), t.Of(OutputMath(args)));
    var i: nat :| CollectsAt(rs, i, id, l, parts, args);
    o := i;
  }

  lemma {:induction false} ComputingMore(rs: seq<Record>, part: seq<Record>, layers: int, parts: set<Part>, t: LayerTail, decode: bool)
    requires Computing(rs, layers, parts, t, decode)
    requires forall i :: 0 <= i < |part| ==> part[i].layer >= layers || !part[i].op.KvCacheTileRead?
    ensures Computing(rs + part, layers, parts, t, decode)
  {
    forall l: nat | l < layers
      ensures LayerComputes(rs + part, l, parts, t) && (decode ==> CacheCurrent(rs + part, l))
    {
      LayerComputesMore(rs, rs + part, l, parts, t);
      if decode {
        CacheStaysCurrent(rs, part, l);
      }
    }
  }

  lemma {:induction false} ComputingNext(rs: seq<Record>, part: seq<Record>, layer: nat, parts: set<Part>, t: LayerTail, decode: bool)
    requires Computing(rs, layer, parts, t, decode) && LayerComputes(rs + part, layer, parts, t)
    requires forall i :: 0 <= i < |rs| ==> rs[i].layer < layer
    requires forall i :: 0 <= i < |part| ==> part[i].layer == layer
    requires decode ==> ReadsAppended(rs + part, |rs|, layer)
    ensures Computing(rs + part, layer + 1, parts, t, decode)
  {
    ComputingMore(rs, part, layer, parts, t, decode);
    if decode {
      CacheIsCurrent(rs, part, layer);
    }
  }

  // ---- the parts of a manifest ----

  /** The heads of a decode step, each with all its cache tiles. */
  function DecodeParts(a: AttentionManifest): (parts: set<Part>)
    ensures forall p <- parts :: p.query.None?
  {
    if a.phase.Decode? && a.pastLen > 0 && a.scoreTile > 0
    then set h: nat | h < a.heads :: WholePart(h, CeilDiv(a.pastLen, a.scoreTile))
    else {}
  }

  lemma {:induction false} DecodeEndsApart(a: AttentionManifest)
    ensures EndsApart(DecodeParts(a))
  {
  }

  lemma {:induction false} DecodeBlockAttends(block: seq<Record>, a: AttentionManifest)
    requires a.phase.Decode? && ValidAttention(a) && DecodeComputes(block, a.layers, a.heads, CeilDiv(a.pastLen, a.scoreTile))
    ensures BlockAttends(block, DecodeParts(a))
  {
    var n := CeilDiv(a.pastLen, a.scoreTile);
    assert HeadsAttended(block, 0, a.heads, n);
    forall p | p in DecodeParts(a) ensures Attended(block, 0, p) {
      var h: nat :| h < a.heads && p == WholePart(h, n);
    }
  }

  /** The heads and query tiles of a prompt, each with the key tiles it may see. */
  ghost function PromptParts(a: AttentionManifest): set<Part>
    requires a.scoreTile > 0 && a.contextTile > 0
  {
    set h: nat, q: nat | h < a.heads && q < |QueryTiles(a)| :: VisiblePart(h, q, QueryTiles(a)[q], KeyTiles(a))
  }

  lemma {:induction false} PromptEndsApart(a: AttentionManifest)
    requires a.scoreTile > 0 && a.contextTile > 0
    ensures EndsApart(PromptParts(a))
  {
  }

  lemma {:induction false} PromptBlockAttends(block: seq<Record>, a: AttentionManifest)
    requires ValidAttention(a) && PrefillComputes(block, a.layers, a.heads, QueryTiles(a), KeyTiles(a))
    ensures BlockAttends(block, PromptParts(a))
  {
    assert PromptAttended(block, 0, a.heads, QueryTiles(a), KeyTiles(a));
    forall p | p in PromptParts(a) ensures Attended(block, 0, p) {
      var h: nat, q: nat :| h < a.heads && q < |QueryTiles(a)| && p == VisiblePart(h, q, QueryTiles(a)[q], KeyTiles(a));
      assert QueriesAttended(block, 0, h, QueryTiles(a), KeyTiles(a), |QueryTiles(a)|);
    }
  }
}
