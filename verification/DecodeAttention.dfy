/** The two schedules of decode attention, `generate_attention_records`. */
module DecodeAttention {
  import opened Attention
  import opened AttentionContexts
  import opened CausalTiling
  import opened DataFlow
  import opened DecodeScores
  import opened Division
  import opened Manifests
  import opened Records
  import opened Relinking
  import opened Results
  import opened Sequences

  lemma {:induction false} TimesSum(n: nat, a: int, b: int)
    ensures Times(n, a + b) == Times(n, a) + Times(n, b)
    decreases n
  {
    if n > 0 {
      TimesSum(n - 1, a, b);
    }
  }

  /** `extended` adds `work` requests and `terminals` terminal records, and keeps what its
      records supply. */
  ghost predicate Grown(records: seq<Record>, extended: seq<Record>, work: int, terminals: int, scope: Scope) {
    && AttentionBlock(extended, scope) && (records != [] || terminals > 0 ==> extended != [])
    && (extended != [] && records != extended ==> Continued(records, extended, scope))
    && Requests(extended) == Requests(records) + work
    && Terminals(extended) == Terminals(records) + terminals
    && KeepsTerminals(records, extended)
  }

  lemma {:induction false} GrownTwice(a: seq<Record>, b: seq<Record>, c: seq<Record>, work: int, more: int, terminals: int, moreTerminals: int, scope: Scope)
    requires Grown(a, b, work, terminals, scope) && Grown(b, c, more, moreTerminals, scope)
    ensures Grown(a, c, work + more, terminals + moreTerminals, scope)
  {
    if a != b && b != c && b != [] {
      ContinuedThrough(a, b, c, scope);
    }
    forall x | TerminalIn(a, x)
      ensures TerminalIn(c, x)
    {
      assert TerminalIn(b, x);
    }
  }

  /** Some unread result of the block is the attention of the part. */
  ghost predicate Attended(rs: seq<Record>, layer: nat, part: Part) {
    exists end :: TerminalIn(rs, end) && Holds(rs, end, Tensor(layer, part.EndName()), part.Attend())
  }

  lemma {:induction false} AttendedStays(before: seq<Record>, after: seq<Record>, layer: nat, part: Part, scope: Scope)
    requires Attended(before, layer, part) && KeepsTerminals(before, after) && KeepsValues(before, after)
    ensures Attended(after, layer, part)
  {
    var end :| TerminalIn(before, end) && Holds(before, end, Tensor(layer, part.EndName()), part.Attend());
    assert TerminalIn(after, end) && Holds(after, end, Tensor(layer, part.EndName()), part.Attend());
  }

  /** The first heads of a layer have their results. */
  ghost predicate HeadsAttended(rs: seq<Record>, layer: nat, heads: nat, n: nat) {
    forall h: nat :: h < heads ==> Attended(rs, layer, WholePart(h, n))
  }

  /** Results stay results, and their values. */
  lemma {:induction false} AllStay(before: seq<Record>, after: seq<Record>, work: int, terminals: int, scope: Scope)
    requires Grown(before, after, work, terminals, scope)
    ensures forall layer, part {:trigger Attended(after, layer, part)} :: Attended(before, layer, part) ==> Attended(after, layer, part)
  {
    forall layer, part | Attended(before, layer, part)
      ensures Attended(after, layer, part)
    {
      if before != after {
        var end :| TerminalIn(before, end) && Holds(before, end, Tensor(layer, part.EndName()), part.Attend());
        assert before != [];
        AttendedStays(before, after, layer, part, scope);
      }
    }
  }

  lemma {:induction false} HeadsStay(before: seq<Record>, after: seq<Record>, layer: nat, heads: nat, n: nat, work: int, terminals: int, scope: Scope)
    requires HeadsAttended(before, layer, heads, n) && Grown(before, after, work, terminals, scope)
    ensures HeadsAttended(after, layer, heads, n)
  {
    AllStay(before, after, work, terminals, scope);
    forall h: nat | h < heads
      ensures Attended(after, layer, WholePart(h, n))
    {
      assert Attended(before, layer, WholePart(h, n));
    }
  }

  /** A part's scores are read and its result is left. */
  lemma {:induction false} PartGrows(records: seq<Record>, extended: seq<Record>, end: int, layer: nat, part: Part, scores: seq<int>, work: seq<int>,
                  pending: set<Product>, scope: Scope)
    requires |part.tiles| == |scores| && PartEnded(records, extended, end, layer, part, scores, ScoreArgs(part), work, scope)
    requires Settled(records, pending)
    ensures Grown(records, extended, Sum(work), 1, scope) && Attended(extended, layer, part)
    ensures Settled(extended, pending - Products(layer, scores, ScoreNames(part)))
  {
    SettledAfter(records, extended, pending, Products(layer, scores, ScoreNames(part)), {(end, Tensor(layer, part.EndName()))});
  }

  lemma {:induction false} ScoresGrow(records: seq<Record>, extended: seq<Record>, ids: seq<int>, layer: nat, head: nat, work: seq<int>, pending: set<Product>,
                   scope: Scope)
    requires HeadScored(records, extended, ids, layer, head, work, scope) && Settled(records, pending)
    ensures Grown(records, extended, Sum(work), 0, scope) && extended != []
    ensures Settled(extended, pending + Products(layer, ids, ScoreNames(WholePart(head, |work|))))
  {
    SameTerminals(records, extended);
    SettledAfter(records, extended, pending, {}, Products(layer, ids, ScoreNames(WholePart(head, |work|))));
  }

  method WholeHead(records: seq<Record>, layer: nat, head: nat, work: seq<int>, ghost scope: Scope)
      returns (extended: seq<Record>)
    requires AttentionBlock(records, scope) && layer < scope.layers && |work| >= 1 && Settled(records, {})
    ensures Grown(records, extended, 2 * Sum(work), 1, scope)
    ensures Settled(extended, {}) && Attended(extended, layer, WholePart(head, |work|))
  {
    var scored, scores := HeadScores(records, layer, head, work, scope);
    ghost var part := WholePart(head, |work|);
    ScoresGrow(records, scored, scores, layer, head, work, {}, scope);
    ghost var end;
    extended, end := HeadContexts(scored, layer, WholePart(head, |work|), work, scores, ScoreArgs(part), scope);
    PartGrows(scored, extended, end, layer, part, scores, work, {} + Products(layer, scores, ScoreNames(part)), scope);
    NothingPending(extended, Products(layer, scores, ScoreNames(part)));
    GrownTwice(records, scored, extended, Sum(work), Sum(work), 0, 1, scope);
  }

  lemma {:induction false} NothingPending(rs: seq<Record>, read: set<Product>)
    requires Settled(rs, ({} + read) - read)
    ensures Settled(rs, {})
  {
  }

  /** The first heads of a layer are done. */
  ghost predicate HeadsDone(records: seq<Record>, extended: seq<Record>, heads: nat, layer: nat, work: seq<int>, scope: Scope) {
    && Grown(records, extended, Times(heads, 2 * Sum(work)), heads, scope)
    && Settled(extended, {}) && HeadsAttended(extended, layer, heads, |work|)
  }

  lemma {:induction false} NoHeadsDone(records: seq<Record>, layer: nat, work: seq<int>, scope: Scope)
    requires AttentionBlock(records, scope) && Settled(records, {})
    ensures HeadsDone(records, records, 0, layer, work, scope)
  {
  }

  method NextHead(ghost records: seq<Record>, before: seq<Record>, layer: nat, head: nat, work: seq<int>, ghost scope: Scope)
      returns (after: seq<Record>)
    requires HeadsDone(records, before, head, layer, work, scope) && layer < scope.layers && |work| >= 1
    ensures HeadsDone(records, after, head + 1, layer, work, scope)
  {
    after := WholeHead(before, layer, head, work, scope);
    NextHeadDone(records, before, after, layer, head, work, scope);
  }

  lemma {:induction false} NextHeadDone(records: seq<Record>, before: seq<Record>, after: seq<Record>, layer: nat, head: nat, work: seq<int>, scope: Scope)
    requires HeadsDone(records, before, head, layer, work, scope)
    requires Grown(before, after, 2 * Sum(work), 1, scope) && Settled(after, {}) && Attended(after, layer, WholePart(head, |work|))
    ensures HeadsDone(records, after, head + 1, layer, work, scope)
  {
    GrownTwice(records, before, after, Times(head, 2 * Sum(work)), 2 * Sum(work), head, 1, scope);
    HeadsStay(before, after, layer, head, |work|, 2 * Sum(work), 1, scope);
  }

  /** One head after another: scores, then softmax and contexts. */
  method SerializedLayer(records: seq<Record>, layer: nat, heads: nat, work: seq<int>, ghost scope: Scope)
      returns (extended: seq<Record>)
    requires AttentionBlock(records, scope) && layer < scope.layers && |work| >= 1 && Settled(records, {})
    ensures HeadsDone(records, extended, heads, layer, work, scope)
  {
    extended := records;
    NoHeadsDone(records, layer, work, scope);
    for head := 0 to heads
      invariant HeadsDone(records, extended, head, layer, work, scope)
    {
      extended := NextHead(records, extended, layer, head, work, scope);
    }
  }

  // ---- overlapped heads ----

  ghost predicate AllScored(rs: seq<Record>, scores: seq<seq<int>>, layer: nat, n: nat) {
    forall h: nat :: h < |scores| ==> |scores[h]| == n && HeadHeld(rs, scores[h], layer, h, n)
  }

  ghost predicate HeadHeld(rs: seq<Record>, ids: seq<int>, layer: nat, head: nat, n: nat) {
    HoldsEach(rs, ids, layer, ScoreNames(WholePart(head, n)), ScoreArgs(WholePart(head, n)))
  }

  /** The scores of the heads from `from` on. */
  ghost function ScoresFrom(scores: seq<seq<int>>, layer: nat, n: nat, from: nat): set<Product>
    decreases |scores| - from
  {
    if from >= |scores| then {}
    else
      (if |scores[from]| == n then Products(layer, scores[from], ScoreNames(WholePart(from, n))) else {})
      + ScoresFrom(scores, layer, n, from + 1)
  }

  lemma {:induction false} MoreScoresFrom(scores: seq<seq<int>>, ids: seq<int>, layer: nat, n: nat, from: nat)
    requires from <= |scores| && |ids| == n
    ensures ScoresFrom(scores + [ids], layer, n, from)
         == ScoresFrom(scores, layer, n, from) + Products(layer, ids, ScoreNames(WholePart(|scores|, n)))
    decreases |scores| - from
  {
    if from < |scores| {
      MoreScoresFrom(scores, ids, layer, n, from + 1);
    } else {
      assert ScoresFrom(scores + [ids], layer, n, from + 1) == {};
    }
  }

  lemma {:induction false} ScoresKept(before: seq<Record>, after: seq<Record>, scores: seq<seq<int>>, layer: nat, n: nat)
    requires AllScored(before, scores, layer, n) && KeepsValues(before, after)
    ensures AllScored(after, scores, layer, n)
  {
    forall h: nat | h < |scores|
      ensures |scores[h]| == n && HeadHeld(after, scores[h], layer, h, n)
    {
      assert HeadHeld(before, scores[h], layer, h, n);
      HoldsEachKept(before, after, scores[h], layer, ScoreNames(WholePart(h, n)), ScoreArgs(WholePart(h, n)));
    }
  }

  /** The score phases so far, whose scores are pending. */
  ghost predicate ScorePhase(records: seq<Record>, extended: seq<Record>, scores: seq<seq<int>>, layer: nat, work: seq<int>, scope: Scope) {
    && Grown(records, extended, Times(|scores|, Sum(work)), 0, scope) && (scores != [] ==> extended != [])
    && AllScored(extended, scores, layer, |work|)
    && Settled(extended, ScoresFrom(scores, layer, |work|, 0))
  }

  lemma {:induction false} NextScorePhase(records: seq<Record>, before: seq<Record>, after: seq<Record>, scores: seq<seq<int>>, ids: seq<int>, layer: nat,
                       work: seq<int>, scope: Scope)
    requires ScorePhase(records, before, scores, layer, work, scope)
    requires HeadScored(before, after, ids, layer, |scores|, work, scope)
    ensures ScorePhase(records, after, scores + [ids], layer, work, scope)
  {
    ScoresGrow(before, after, ids, layer, |scores|, work, ScoresFrom(scores, layer, |work|, 0), scope);
    GrownTwice(records, before, after, Times(|scores|, Sum(work)), Sum(work), 0, 0, scope);
    MoreScoresFrom(scores, ids, layer, |work|, 0);
    MoreAllScored(before, after, scores, ids, layer, |work|);
  }

  lemma {:induction false} MoreAllScored(records: seq<Record>, extended: seq<Record>, scores: seq<seq<int>>, ids: seq<int>, layer: nat, n: nat)
    requires AllScored(records, scores, layer, n) && KeepsValues(records, extended)
    requires |ids| == n && HeadHeld(extended, ids, layer, |scores|, n)
    ensures AllScored(extended, scores + [ids], layer, n)
  {
    ScoresKept(records, extended, scores, layer, n);
    forall h: nat | h < |scores + [ids]|
      ensures |(scores + [ids])[h]| == n && HeadHeld(extended, (scores + [ids])[h], layer, h, n)
    {
      if h < |scores| {
        assert HeadHeld(extended, scores[h], layer, h, n);
      }
    }
  }

  method AllHeadScores(records: seq<Record>, layer: nat, heads: nat, work: seq<int>, ghost scope: Scope)
      returns (extended: seq<Record>, scores: seq<seq<int>>)
    requires AttentionBlock(records, scope) && layer < scope.layers && |work| >= 1 && Settled(records, {})
    ensures |scores| == heads && ScorePhase(records, extended, scores, layer, work, scope)
  {
    extended, scores := records, [];
    for head := 0 to heads
      invariant |scores| == head && ScorePhase(records, extended, scores, layer, work, scope)
    {
      ghost var before := extended;
      var ids;
      extended, ids := HeadScores(extended, layer, head, work, scope);
      NextScorePhase(records, before, extended, scores, ids, layer, work, scope);
      scores := scores + [ids];
    }
  }

  /** The context phases of the first `heads` heads. */
  ghost predicate ContextPhase(scored: seq<Record>, extended: seq<Record>, scores: seq<seq<int>>, heads: nat, layer: nat, work: seq<int>, scope: Scope) {
    && Grown(scored, extended, Times(heads, Sum(work)), heads, scope)
    && AllScored(extended, scores, layer, |work|) && HeadsAttended(extended, layer, heads, |work|)
    && Settled(extended, ScoresFrom(scores, layer, |work|, heads))
  }

  lemma {:induction false} NextContextPhase(scored: seq<Record>, before: seq<Record>, after: seq<Record>, end: int, scores: seq<seq<int>>, head: nat, layer: nat,
                         work: seq<int>, scope: Scope)
    requires ContextPhase(scored, before, scores, head, layer, work, scope) && head < |scores| && |scores[head]| == |work|
    requires PartEnded(before, after, end, layer, WholePart(head, |work|), scores[head], ScoreArgs(WholePart(head, |work|)), work, scope)
    ensures ContextPhase(scored, after, scores, head + 1, layer, work, scope)
  {
    var part := WholePart(head, |work|);
    PartGrows(before, after, end, layer, part, scores[head], work, ScoresFrom(scores, layer, |work|, head), scope);
    GrownTwice(scored, before, after, Times(head, Sum(work)), Sum(work), head, 1, scope);
    ScoresKept(before, after, scores, layer, |work|);
    HeadsStay(before, after, layer, head, |work|, Sum(work), 1, scope);
  }

  method NextHeadContexts(ghost scored: seq<Record>, records: seq<Record>, layer: nat, head: nat, scores: seq<seq<int>>, work: seq<int>,
                          ghost scope: Scope)
      returns (extended: seq<Record>)
    requires ContextPhase(scored, records, scores, head, layer, work, scope) && layer < scope.layers && records != []
    requires head < |scores| && |work| >= 1
    ensures ContextPhase(scored, extended, scores, head + 1, layer, work, scope) && extended != []
  {
    assert |scores[head]| == |work| && HeadHeld(records, scores[head], layer, head, |work|);
    ghost var part, end := WholePart(head, |work|), 0;
    extended, end := HeadContexts(records, layer, WholePart(head, |work|), work, scores[head], ScoreArgs(part), scope);
    NextContextPhase(scored, records, extended, end, scores, head, layer, work, scope);
  }

  lemma {:induction false} NoContexts(records: seq<Record>, scored: seq<Record>, scores: seq<seq<int>>, layer: nat, work: seq<int>, scope: Scope)
    requires ScorePhase(records, scored, scores, layer, work, scope)
    ensures ContextPhase(scored, scored, scores, 0, layer, work, scope)
  {
  }

  lemma {:induction false} BothPhases(records: seq<Record>, scored: seq<Record>, extended: seq<Record>, scores: seq<seq<int>>, layer: nat, work: seq<int>, scope: Scope)
    requires ScorePhase(records, scored, scores, layer, work, scope)
    requires ContextPhase(scored, extended, scores, |scores|, layer, work, scope)
    ensures HeadsDone(records, extended, |scores|, layer, work, scope)
  {
    GrownTwice(records, scored, extended, Times(|scores|, Sum(work)), Times(|scores|, Sum(work)), 0, |scores|, scope);
    TimesDoubles(|scores|, Sum(work));
  }

  lemma {:induction false} TimesDoubles(n: nat, a: int)
    ensures Times(n, a) + Times(n, a) == Times(n, 2 * a)
  {
    TimesSum(n, a, a);
    assert a + a == 2 * a;
  }

  /** The score phases of all heads first, then all softmax and context phases. */
  method OverlappedLayer(records: seq<Record>, layer: nat, heads: nat, work: seq<int>, ghost scope: Scope)
      returns (extended: seq<Record>)
    requires AttentionBlock(records, scope) && layer < scope.layers && |work| >= 1 && Settled(records, {})
    ensures HeadsDone(records, extended, heads, layer, work, scope)
  {
    var scores: seq<seq<int>>;
    extended, scores := AllHeadScores(records, layer, heads, work, scope);
    ghost var scored := extended;
    NoContexts(records, scored, scores, layer, work, scope);
    for head := 0 to heads
      invariant ContextPhase(scored, extended, scores, head, layer, work, scope) && (heads > 0 ==> extended != [])
    {
      extended := NextHeadContexts(scored, extended, layer, head, scores, work, scope);
    }
    BothPhases(records, scored, extended, scores, layer, work, scope);
  }

  /** Requests of the scores of one head, and equally of its contexts. */
  function DecodeWork(m: AttentionManifest): seq<int>
    requires m.scoreTile > 0
  {
    TileWork(PredictedRanges(m.pastLen, m.scoreTile), m)
  }

  /** The requests of a tiling cover the products of all its tiles. */
  lemma {:induction false} TileWorkCovers(tiles: seq<Range>, from: int, to: int, m: AttentionManifest)
    requires Tiles(tiles, from, to) && m.headDim > 0
    ensures Covers(Sum(TileWork(tiles, m)), (to - from) * m.headDim, |tiles|, m.datatyp)
    decreases |tiles|
  {
    if tiles != [] {
      var t := tiles[0];
      TileWorkCovers(tiles[1..], t.End(), to, m);
      assert TileWork(tiles, m)[1..] == TileWork(tiles[1..], m);
      MoreCovered(t.size, to - t.End(), m.headDim, Sum(TileWork(tiles[1..], m)), |tiles| - 1, m.datatyp);
    }
  }

  lemma {:induction false} MoreCovered(size: int, rest: int, width: int, requests: int, records: int, d: Datatype)
    requires size >= 1 && width >= 1 && Covers(requests, rest * width, records, d)
    ensures Covers(NumRequests(size * width, d) + requests, (size + rest) * width, records + 1, d)
  {
    MulPositive(size, width);
    RequestCovers(size * width, d);
    CoversSum(NumRequests(size * width, d), size * width, 1, requests, rest * width, records, d);
    assert size * width + rest * width == (size + rest) * width;
  }

  /** Scores and contexts of all heads and layers. */
  lemma {:induction false} DecodeWorkCovers(m: AttentionManifest)
    requires ValidAttention(m) && m.phase.Decode?
    ensures Covers(m.layers * (m.heads * (2 * Sum(DecodeWork(m)))), m.layers * (m.heads * (2 * (m.pastLen * m.headDim))),
                   m.layers * (m.heads * (2 * CeilDiv(m.pastLen, m.scoreTile))), m.datatyp)
  {
    SomeTile(m.pastLen, m.scoreTile);
    PredictedTiles(m.pastLen, m.scoreTile);
    TileWorkCovers(PredictedRanges(m.pastLen, m.scoreTile), 0, m.pastLen, m);
    var w, e, n := Sum(DecodeWork(m)), m.pastLen * m.headDim, CeilDiv(m.pastLen, m.scoreTile);
    CoversTimes(2, w, e, n, m.datatyp);
    CoversTimes(m.heads, 2 * w, 2 * e, 2 * n, m.datatyp);
    CoversTimes(m.layers, m.heads * (2 * w), m.heads * (2 * e), m.heads * (2 * n), m.datatyp);
  }

  lemma {:induction false} SomeTile(total: int, tile: int)
    requires total > 0 && tile > 0
    ensures |PredictedRanges(total, tile)| >= 1
  {
    CeilDivBounds(total, tile);
  }

  /** Every head of the first layers has a result, its attention to all its cache tiles. */
  ghost predicate DecodeComputes(rs: seq<Record>, layers: nat, heads: nat, n: nat) {
    Settled(rs, {}) && forall l: nat :: l < layers ==> HeadsAttended(rs, l, heads, n)
  }

  ghost predicate LayersDone(rs: seq<Record>, layers: nat, heads: nat, work: seq<int>, scope: Scope) {
    && Grown([], rs, Times(layers, Times(heads, 2 * Sum(work))), Times(layers, heads), scope) && (layers > 0 && heads > 0 ==> rs != [])
    && DecodeComputes(rs, layers, heads, |work|)
  }

  lemma {:induction false} LayersStay(before: seq<Record>, after: seq<Record>, layer: nat, heads: nat, n: nat, work: int, scope: Scope)
    requires forall l: nat :: l < layer ==> HeadsAttended(before, l, heads, n)
    requires Grown(before, after, work, heads, scope)
    ensures forall l: nat :: l < layer ==> HeadsAttended(after, l, heads, n)
  {
    forall l: nat | l < layer
      ensures HeadsAttended(after, l, heads, n)
    {
      HeadsStay(before, after, l, heads, n, work, heads, scope);
    }
  }

  lemma {:induction false} NextLayerDone(before: seq<Record>, after: seq<Record>, layer: nat, heads: nat, work: seq<int>, scope: Scope)
    requires LayersDone(before, layer, heads, work, scope) && HeadsDone(before, after, heads, layer, work, scope)
    ensures LayersDone(after, layer + 1, heads, work, scope)
  {
    var each := Times(heads, 2 * Sum(work));
    GrownTwice([], before, after, Times(layer, each), each, Times(layer, heads), heads, scope);
    LayersStay(before, after, layer, heads, |work|, each, scope);
  }

  method DecodeLayer(records: seq<Record>, layer: nat, m: AttentionManifest, ghost scope: Scope) returns (extended: seq<Record>)
    requires ValidAttention(m) && m.phase.Decode? && layer < scope.layers && LayersDone(records, layer, m.heads, DecodeWork(m), scope)
    ensures LayersDone(extended, layer + 1, m.heads, DecodeWork(m), scope)
  {
    SomeTile(m.pastLen, m.scoreTile);
    var tiles := TileRanges(m.pastLen, m.scoreTile);
    var work := TileWork(tiles, m);
    if m.overlapHeads {
      extended := OverlappedLayer(records, layer, m.heads, work, scope);
    } else {
      extended := SerializedLayer(records, layer, m.heads, work, scope);
    }
    NextLayerDone(records, extended, layer, m.heads, work, scope);
  }

  lemma {:induction false} NoLayersDone(heads: nat, work: seq<int>, scope: Scope)
    ensures LayersDone([], 0, heads, work, scope)
  {
    EmptyBlock();
  }

  method AllDecodeLayers(m: AttentionManifest) returns (records: seq<Record>)
    requires ValidAttention(m) && m.phase.Decode?
    ensures LayersDone(records, m.layers, m.heads, DecodeWork(m), Scope(m.layers, false))
  {
    records := [];
    NoLayersDone(m.heads, DecodeWork(m), Scope(m.layers, false));
    for layer := 0 to m.layers
      invariant LayersDone(records, layer, m.heads, DecodeWork(m), Scope(m.layers, false))
    {
      records := DecodeLayer(records, layer, m, Scope(m.layers, false));
    }
  }

  /** The decode part of `generate_attention_records`.  Both schedules emit the same
      work and one terminal record for each head and layer, the head's attention to all
      its cache tiles; every other output is read by a record that depends on its maker. */
  method GenerateDecodeAttention(m: AttentionManifest) returns (r: Result<seq<Record>>)
    requires m.phase.Decode?
    ensures r.Ok? <==> ValidAttention(m)
    ensures r.Ok? ==>
      && AttentionBlock(r.value, Scope(m.layers, false)) && r.value != []
      && Requests(r.value) == m.layers * (m.heads * (2 * Sum(DecodeWork(m))))
      && Terminals(r.value) == m.layers * m.heads
      && Covers(Requests(r.value), m.layers * (m.heads * (2 * (m.pastLen * m.headDim))),
                m.layers * (m.heads * (2 * CeilDiv(m.pastLen, m.scoreTile))), m.datatyp)
      && DecodeComputes(r.value, m.layers, m.heads, CeilDiv(m.pastLen, m.scoreTile))
  {
    if !ValidAttention(m) {
      return Err(BadArgument);
    }
    var records := AllDecodeLayers(m);
    DecodeTotals(records, m, Scope(m.layers, false));
    r := Ok(records);
  }

  lemma {:induction false} DecodeTotals(records: seq<Record>, m: AttentionManifest, scope: Scope)
    requires ValidAttention(m) && m.phase.Decode? && LayersDone(records, m.layers, m.heads, DecodeWork(m), scope)
    ensures Requests(records) == m.layers * (m.heads * (2 * Sum(DecodeWork(m)))) && Terminals(records) == m.layers * m.heads
    ensures Covers(Requests(records), m.layers * (m.heads * (2 * (m.pastLen * m.headDim))),
                   m.layers * (m.heads * (2 * CeilDiv(m.pastLen, m.scoreTile))), m.datatyp)
    ensures |DecodeWork(m)| == CeilDiv(m.pastLen, m.scoreTile)
  {
    var each := 2 * Sum(DecodeWork(m));
    TimesIsProduct(m.heads, each);
    TimesIsProduct(m.layers, m.heads * each);
    TimesIsProduct(m.layers, m.heads);
    SomeTile(m.pastLen, m.scoreTile);
    DecodeWorkCovers(m);
  }
}
