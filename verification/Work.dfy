/** What the emitted records do when they are replayed: host streams, all-bank issues
    and per-bank MACs are neither lost, duplicated nor moved. */
module Work {
  import opened Addressing
  import opened Division
  import opened FlatBank
  import opened HostStream
  import opened Lowering
  import opened MixedRadix
  import opened ModeSafety
  import opened Results
  import opened Sequences
  import opened Trace

  // ----- host streams

  /** Appending one record appends its issues. */
  lemma HostTraceAppend(o: Opcode, records: seq<Concrete>, rec: Concrete)
    ensures HostTrace(o, records + [rec]) == HostTrace(o, records) + Issues(o, rec)
  {
    FlatMapAppend(IssuesOf(o), records, rec);
  }

  lemma SingleBankTrace(o: Opcode, t: Target, m: Machine, v: seq<int>)
    requires o != OpSB && ValidTarget(t) && Sized(t, m) && |v| == t.config.size && ToSingleBank(t, m, v).Ok?
    ensures HostTrace(o, ToSingleBank(t, m, v).value.records) == HostTrace(o, m.records)
  {
    var single := ToSingleBank(t, m, v).value;
    if single.records != m.records {
      HostTraceAppend(o, m.records, single.records[|m.records|]);
    }
  }

  lemma HostRecordTrace(o: Opcode, single: Machine, opcode: Opcode, v: seq<int>, c: Chunk)
    requires c.repeat >= 1 && c.stride >= 0
    ensures HostTrace(o, AppendHost(single, opcode, v, c).records)
         == HostTrace(o, single.records) + (if o == opcode then Expand(c) else [])
  {
    var next := AppendHost(single, opcode, v, c);
    var rec := next.records[|single.records|];
    HostTraceAppend(o, single.records, rec);
    ChunkIssues(c, rec, o);
  }

  /** One chunk: returning its rank to SB issues nothing, the host record its bytes. */
  lemma ChunkTrace(o: Opcode, t: Target, m: Machine, opcode: Opcode, v: seq<int>, c: Chunk)
    requires o != OpSB && ValidTarget(t) && Sized(t, m) && c.repeat >= 1 && c.stride >= 0
    requires |v| == t.config.size && ToSingleBank(t, m, v).Ok?
    ensures HostTrace(o, AppendHost(ToSingleBank(t, m, v).value, opcode, v, c).records)
         == HostTrace(o, m.records) + (if o == opcode then Expand(c) else [])
  {
    SingleBankTrace(o, t, m, v);
    HostRecordTrace(o, ToSingleBank(t, m, v).value, opcode, v, c);
  }

  lemma {:induction false} AppendChunksTrace(o: Opcode, t: Target, m: Machine, opcode: Opcode, chunks: seq<Chunk>, done: Machine)
    requires o != OpSB && ValidTarget(t) && Sized(t, m) && AppendChunks(t, m, opcode, chunks) == Ok(done)
    requires forall c :: c in chunks ==> c.repeat >= 1 && c.stride >= 0
    ensures HostTrace(o, done.records) == HostTrace(o, m.records) + (if o == opcode then ExpandAll(chunks) else [])
    decreases |chunks|
  {
    if |chunks| > 0 {
      var c := chunks[0];
      var v := HostVector(t, c.base).value;
      ChunkTrace(o, t, m, opcode, v, c);
      AppendChunksTrace(o, t, AppendHost(ToSingleBank(t, m, v).value, opcode, v, c), opcode, chunks[1..], done);
      ConcatAssociative(HostTrace(o, m.records), Expand(c), ExpandAll(chunks[1..]));
    }
  }

  /** A record of one repeat has no stride field, and needs none. */
  lemma ChunkIssues(c: Chunk, rec: Concrete, o: Opcode)
    requires c.repeat >= 1 && c.stride >= 0 && rec.repeat == c.repeat
    requires rec.host == Some(HostBytes(c.base, if c.repeat > 1 && c.stride > 0 then c.stride else 0))
    ensures Issues(o, rec) == if rec.opcode == o then Expand(c) else []
  {
  }

  lemma {:induction false} StrictStridesNonNegative(base: int, stride: int, offset: int, remaining: int, maxRepeat: int)
    requires maxRepeat > 0 && stride >= 0
    ensures forall c :: c in StrictChunks(base, stride, offset, remaining, maxRepeat) ==> c.stride >= 0
    decreases remaining
  {
    if remaining > 0 {
      StrictStridesNonNegative(base, stride, offset + Min(maxRepeat, remaining), remaining - Min(maxRepeat, remaining), maxRepeat);
    }
  }

  lemma {:induction false} BoundedStridesNonNegative(
    base: int, stride: int, offset: int, remaining: int, maxRepeat: int, layout: Layout)
    requires maxRepeat > 0 && UsableLayout(layout)
    ensures forall c :: c in BoundedChunks(base, stride, offset, remaining, maxRepeat, layout) ==> c.stride >= 0
    decreases remaining
  {
    if remaining > 0 {
      var c := BoundedChunk(base, stride, offset, remaining, maxRepeat, layout);
      MulMonotone(0, BoundedStep(stride, layout), layout.txBytes);
      BoundedStridesNonNegative(base, stride, offset + c.repeat, remaining - c.repeat, maxRepeat, layout);
    }
  }

  lemma ChunksReplay(base: int, stride: int, count: int, layout: Option<Layout>, policy: Policy)
    requires stride >= 0 && HostChunks(base, stride, count, MAX_REPEAT, layout, policy).Ok?
    ensures forall c :: c in HostChunks(base, stride, count, MAX_REPEAT, layout, policy).value ==>
              c.repeat >= 1 && c.stride >= 0
  {
    ChunksWellSized(base, stride, count, MAX_REPEAT, layout, policy);
    if policy == BoundedSurrogate {
      BoundedStridesNonNegative(base, stride, 0, count, MAX_REPEAT, layout.value);
    } else {
      StrictStridesNonNegative(base, stride, 0, count, MAX_REPEAT);
    }
  }

  /** Two consecutive stretches of a stream are one stretch. */
  lemma StreamJoin(base: int, stride: int, a: nat, b: nat, policy: Policy, layout: Option<Layout>)
    requires Applicable(policy, layout)
    ensures Stream(base, stride, a, policy, layout) + Stream(base + a * stride, stride, b, policy, layout)
         == Stream(base, stride, a + b, policy, layout)
  {
    var second := Stream(base + a * stride, stride, b, policy, layout);
    forall j | 0 <= j < |second|
      ensures second[j] == Stream(base, stride, a + b, policy, layout)[a + j]
    {
      StreamShift(base, stride, a, j);
    }
  }

  lemma StreamShift(base: int, stride: int, a: int, j: int)
    ensures (base + a * stride) + j * stride == base + (a + j) * stride
  {
  }

  lemma NextRepeatBase(base: int, stride: int, count: int, from: int)
    ensures RepeatBase(base, stride, count, from) + count * stride == RepeatBase(base, stride, count, from + 1)
    ensures RepeatBase(base, stride, count, 0) == base
  {
    assert (from + 1) * count * stride == from * count * stride + count * stride;
    assert 0 * count * stride == 0;
  }

  /** The streams of repetitions `from` up to `repeat`, one after the other. */
  function RepeatedStream(
    base: int, stride: int, count: nat, from: int, repeat: int, policy: Policy, layout: Option<Layout>): seq<int>
    requires Applicable(policy, layout)
    decreases repeat - from
  {
    if from >= repeat then []
    else Stream(RepeatBase(base, stride, count, from), stride, count, policy, layout)
         + RepeatedStream(base, stride, count, from + 1, repeat, policy, layout)
  }

  lemma {:induction false} RepeatedStreamIsOneStream(
    base: int, stride: int, count: nat, from: int, repeat: int, policy: Policy, layout: Option<Layout>, total: nat)
    requires Applicable(policy, layout) && from <= repeat && total == (repeat - from) * count
    ensures RepeatedStream(base, stride, count, from, repeat, policy, layout)
         == Stream(RepeatBase(base, stride, count, from), stride, total, policy, layout)
    decreases repeat - from
  {
    if from < repeat {
      var rest := (repeat - (from + 1)) * count;
      assert total == count + rest;
      MulMonotone(0, repeat - (from + 1), count);
      RepeatedStreamIsOneStream(base, stride, count, from + 1, repeat, policy, layout, rest);
      NextRepeatBase(base, stride, count, from);
      StreamJoin(RepeatBase(base, stride, count, from), stride, count, rest, policy, layout);
    }
  }

  lemma {:induction false} HostRepeatsTrace(
    o: Opcode, t: Target, m: Machine, opcode: Opcode, base: int, stride: int, count: nat, from: int, repeat: int)
    requires o != OpSB && ValidTarget(t) && Sized(t, m) && stride >= 0 && Applicable(t.config.policy, t.config.layout)
    requires HostRepeats(t, m, opcode, base, stride, count, from, repeat).Ok?
    ensures HostTrace(o, HostRepeats(t, m, opcode, base, stride, count, from, repeat).value.records)
         == HostTrace(o, m.records)
            + (if o == opcode
               then RepeatedStream(base, stride, count, from, repeat, t.config.policy, t.config.layout)
               else [])
    decreases repeat - from
  {
    if from < repeat {
      var policy, layout := t.config.policy, t.config.layout;
      var here := RepeatBase(base, stride, count, from);
      var chunks := HostChunks(here, stride, count, MAX_REPEAT, layout, policy).value;
      ChunksReplay(here, stride, count, layout, policy);
      AppendChunksTrace(o, t, m, opcode, chunks, AppendChunks(t, m, opcode, chunks).value);
      ChunksExpandToStream(here, stride, count, MAX_REPEAT, layout, policy);
      HostRepeatsTrace(o, t, AppendChunks(t, m, opcode, chunks).value, opcode, base, stride, count, from + 1, repeat);
      ConcatAssociative(HostTrace(o, m.records), Stream(here, stride, count, policy, layout),
                        RepeatedStream(base, stride, count, from + 1, repeat, policy, layout));
    }
  }

  lemma HostRepeatsReplayStream(
    o: Opcode, t: Target, m: Machine, opcode: Opcode, base: int, stride: int, count: int, repeat: int, total: int)
    requires o != OpSB && ValidTarget(t) && Sized(t, m) && stride >= 0 && count >= 1 && repeat >= 1 && total == repeat * count
    requires HostRepeats(t, m, opcode, base, stride, count, 0, repeat).Ok?
    ensures Applicable(t.config.policy, t.config.layout) && total >= 1
    ensures HostTrace(o, HostRepeats(t, m, opcode, base, stride, count, 0, repeat).value.records)
         == HostTrace(o, m.records)
            + (if o == opcode then Stream(base, stride, total, t.config.policy, t.config.layout) else [])
  {
    MulPositive(repeat, count);
    ChunksExpandToStream(RepeatBase(base, stride, count, 0), stride, count, MAX_REPEAT, t.config.layout, t.config.policy);
    HostRepeatsTrace(o, t, m, opcode, base, stride, count, 0, repeat);
    RepeatedStreamIsOneStream(base, stride, count, 0, repeat, t.config.policy, t.config.layout, total);
    NextRepeatBase(base, stride, count, 0);
  }

  /** Host refinement: replaying what one HostRead/HostWrite record was lowered to issues
      exactly the record's own stream, repeats included, after what came before. */
  lemma HostRecordReplaysItsStream(o: Opcode, t: Target, m: Machine, s: Semantic)
    requires o == OpRead || o == OpWrite
    requires ValidTarget(t) && Sized(t, m) && HostKind(s.kind) && !s.accountingOnly
    requires LowerRecord(t, m, s).Ok?
    ensures s.address.base.Some? && s.address.stride.Some? && s.address.count.Some?
    ensures Applicable(t.config.policy, t.config.layout)
    ensures s.repeat * s.address.count.value >= 1
    ensures HostTrace(o, LowerRecord(t, m, s).value.records)
         == HostTrace(o, m.records)
            + (if o == (if s.kind == HostWrite then OpWrite else OpRead)
               then Stream(s.address.base.value, s.address.stride.value, s.repeat * s.address.count.value,
                           t.config.policy, t.config.layout)
               else [])
  {
    var a := s.address;
    MulPositive(s.repeat, a.count.value);
    HostRepeatsReplayStream(o, t, m, if s.kind == HostWrite then OpWrite else OpRead,
                            a.base.value, a.stride.value, a.count.value, s.repeat, s.repeat * a.count.value);
  }

  lemma WeightBytesFit(w: Movement)
    requires w.txBytes > 0
    ensures WeightCount(w) * w.txBytes >= w.elements * (if w.isInt8 then 1 else 2)
  {
    CeilDivBounds(Max(1, w.elements * (if w.isInt8 then 1 else 2)), w.txBytes);
  }

  /** The same for materialized weights: enough transactions for every weight byte. */
  lemma WeightRecordReplaysItsBytes(o: Opcode, t: Target, m: Machine, s: Semantic)
    requires o == OpRead || o == OpWrite
    requires ValidTarget(t) && Sized(t, m) && s.kind == PIMDataMove && s.movement.isWeight && !s.accountingOnly
    requires t.config.materializeWeights && LowerRecord(t, m, s).Ok?
    ensures Applicable(t.config.policy, t.config.layout) && s.movement.txBytes > 0
    ensures s.repeat * WeightCount(s.movement) >= 1
    ensures WeightCount(s.movement) * s.movement.txBytes >= s.movement.elements * (if s.movement.isInt8 then 1 else 2)
    ensures HostTrace(o, LowerRecord(t, m, s).value.records)
         == HostTrace(o, m.records)
            + (if o == OpWrite
               then Stream(WeightBase(s.movement), s.movement.txBytes, s.repeat * WeightCount(s.movement),
                           t.config.policy, t.config.layout)
               else [])
  {
    var w := s.movement;
    WeightBytesFit(w);
    MulPositive(s.repeat, WeightCount(w));
    HostRepeatsReplayStream(o, t, m, OpWrite, WeightBase(w), w.txBytes, WeightCount(w), s.repeat,
                            s.repeat * WeightCount(w));
  }

  // ----- where weights go

  /** Logical address of transaction `i` of a weight preload. */
  function WeightByte(w: Movement, i: int): int {
    WeightBase(w) + i * w.txBytes
  }

  function ExpertSlot(w: Movement): int {
    match w.expert
    case None => 999
    case Some(e) => e
  }

  /** Transactions from the preload of `a` to that of `b`, for two weights of one op. */
  function SlotGap(a: Movement, b: Movement): int {
    1_000_000 * (b.layer - a.layer) + 100_000 * (b.stage - a.stage)
    + 1_000 * (ExpertSlot(b) - ExpertSlot(a)) + 10 * (b.tile - a.tile)
  }

  predicate WriteApart(a: Movement, b: Movement, n: nat) {
    forall i, j :: 0 <= i < n && 0 <= j < n ==> WeightByte(a, i) != WeightByte(b, j)
  }

  lemma BaseGap(a: Movement, b: Movement)
    requires b.op == a.op && b.txBytes == a.txBytes
    ensures WeightBase(b) == WeightBase(a) + SlotGap(a, b) * a.txBytes
  {
    assert WeightBase(b) - WeightBase(a) == SlotGap(a, b) * a.txBytes by {
      var x := 1_000_000_000 + a.layer * 1_000_000 + a.stage * 100_000 + ExpertSlot(a) * 1_000 + a.tile * 10 + Rem(OpSum(a.op), 1_000);
      var y := 1_000_000_000 + b.layer * 1_000_000 + b.stage * 100_000 + ExpertSlot(b) * 1_000 + b.tile * 10 + Rem(OpSum(b.op), 1_000);
      assert y - x == SlotGap(a, b);
      assert WeightBase(a) == x * a.txBytes && WeightBase(b) == y * a.txBytes;
      assert y * a.txBytes - x * a.txBytes == (y - x) * a.txBytes;
    }
  }

  lemma ScaledEqual(a: int, b: int, r: int)
    requires r > 0
    ensures a * r == b * r <==> a == b
  {
    if a < b {
      MulMonotone(a + 1, b, r);
    } else if b < a {
      MulMonotone(b + 1, a, r);
    }
  }

  /** Preloads of `n` transactions of two weights of one op never write the same
      logical address if and only if they are at least `n` slots apart: a tile has room
      for ten transactions, an expert for a thousand. */
  lemma WeightsApartExactly(a: Movement, b: Movement, n: nat)
    requires b.op == a.op && b.txBytes == a.txBytes && a.txBytes > 0 && n >= 1 && SlotGap(a, b) >= 0
    ensures WriteApart(a, b, n) <==> n <= SlotGap(a, b)
  {
    BaseGap(a, b);
    var gap := SlotGap(a, b);
    forall i, j | 0 <= i < n && 0 <= j < n
      ensures WeightByte(a, i) == WeightByte(b, j) <==> i == gap + j
    {
      assert WeightByte(b, j) - WeightBase(a) == (gap + j) * a.txBytes;
      ScaledEqual(i, gap + j, a.txBytes);
    }
    if gap < n {
      assert WeightByte(a, gap) == WeightByte(b, 0);
    }
  }

  /** A weight without an expert shares its slot with that of expert 999. */
  lemma SharedSlot(w: Movement)
    requires w.expert.None?
    ensures SlotGap(w, w.(expert := Some(999))) == 0
  {
  }

  // ----- repeats of one opcode on one rank

  /** Total repeats of `opcode` in records whose rank is `rank`. */
  function RepeatsOn(t: Target, records: seq<Concrete>, opcode: Opcode, rank: int): int {
    if |records| == 0 then 0
    else
      var n := |records| - 1;
      RepeatsOn(t, records[..n], opcode, rank)
      + if records[n].opcode == opcode && RanksOf(records[n], View(t.rankLevel, false)) == {rank}
        then records[n].repeat else 0
  }

  lemma RepeatsOnAppend(t: Target, records: seq<Concrete>, rec: Concrete, opcode: Opcode, rank: int)
    ensures RepeatsOn(t, records + [rec], opcode, rank) == RepeatsOn(t, records, opcode, rank)
         + if rec.opcode == opcode && RanksOf(rec, View(t.rankLevel, false)) == {rank} then rec.repeat else 0
  {
    assert (records + [rec])[..|records|] == records;
  }

  /** `_split_repeat` loses nothing. */
  lemma {:induction false} SplitsSum(repeat: int, maxRepeat: int)
    requires maxRepeat > 0 && repeat >= 0
    ensures Sum(Splits(repeat, maxRepeat)) == repeat
    decreases repeat
  {
    if repeat > 0 {
      var n := Min(maxRepeat, repeat);
      SplitsSum(repeat - n, maxRepeat);
      assert Splits(repeat, maxRepeat)[1..] == Splits(repeat - n, maxRepeat);
    }
  }

  lemma {:induction false} SplitsRepeats(
    t: Target, m: Machine, opcode: Opcode, v: seq<int>, splits: seq<int>, rank: int)
    requires ValidTarget(t) && |v| == t.config.size && RankId(t, v).Ok?
    ensures RepeatsOn(t, AppendSplits(m, opcode, v, splits).records, opcode, rank)
         == RepeatsOn(t, m.records, opcode, rank) + if RankId(t, v).value == rank then Sum(splits) else 0
    decreases |splits|
  {
    if |splits| > 0 {
      var next := Append(m, opcode, v, splits[0], None, None);
      var rec := next.records[|m.records|];
      RepeatsOnAppend(t, m.records, rec, opcode, rank);
      OneRank(t, false, rec);
      SplitsRepeats(t, next, opcode, v, splits[1..], rank);
    }
  }

  /** Mode records do not count as work. */
  lemma AllBankGroupRepeats(t: Target, m: Machine, v: seq<int>, splits: seq<int>, rank: int)
    requires ValidTarget(t) && Sized(t, m) && |v| == t.config.size && AllBankGroup(t, m, v, splits).Ok?
    ensures RankId(t, v).Ok?
    ensures RepeatsOn(t, AllBankGroup(t, m, v, splits).value.records, OpMacAb, rank)
         == RepeatsOn(t, m.records, OpMacAb, rank) + if RankId(t, v).value == rank then Sum(splits) else 0
  {
    var hab := ToHostAllBank(t, m, v).value;
    if hab.records != m.records {
      RepeatsOnAppend(t, m.records, hab.records[|m.records|], OpMacAb, rank);
    }
    var loaded := EnsureAllBankLoad(t, m, v).value;
    if loaded.records != hab.records {
      RepeatsOnAppend(t, hab.records, loaded.records[|hab.records|], OpMacAb, rank);
    }
    var pim := ToPimAllBank(t, loaded, v).value;
    RepeatsOnAppend(t, loaded.records, pim.records[|loaded.records|], OpMacAb, rank);
    SplitsRepeats(t, pim, OpMacAb, v, splits, rank);
    var work := AppendSplits(pim, OpMacAb, v, splits);
    var closed := CloseAllBank(t, work, v, RankId(t, v).value);
    RepeatsOnAppend(t, work.records, closed.records[|work.records|], OpMacAb, rank);
  }

  predicate Ascending(s: seq<int>) {
    forall i, j :: 0 <= i < j < |s| ==> s[i] < s[j]
  }

  lemma {:induction false} InsertRankAscending(x: int, sorted: seq<int>)
    requires Ascending(sorted)
    ensures Ascending(InsertRank(x, sorted))
  {
    if |sorted| > 0 && x > sorted[0] {
      InsertRankAscending(x, sorted[1..]);
      InsertRankMembers(x, sorted[1..]);
      var rest := InsertRank(x, sorted[1..]);
      forall i | 0 <= i < |rest| ensures sorted[0] < rest[i] {
        assert rest[i] in rest;
      }
    }
  }

  lemma {:induction false} TargetRanksAscending(t: Target, base: seq<int>, banks: seq<int>)
    requires ValidTarget(t) && |base| == t.config.size && BanksFit(t.config) && TargetRanks(t, base, banks).Ok?
    ensures Ascending(TargetRanks(t, base, banks).value)
  {
    if |banks| > 0 {
      var n := |banks| - 1;
      TargetRanksAscending(t, base, banks[..n]);
      InsertRankAscending(TargetRank(t, base, banks[n]).value, TargetRanks(t, base, banks[..n]).value);
    }
  }

  lemma {:induction false} AllBankGroupsRepeats(
    t: Target, m: Machine, base: seq<int>, ranks: seq<int>, splits: seq<int>, rank: int)
    requires ValidTarget(t) && Sized(t, m) && |base| == t.config.size && Ascending(ranks)
    requires t.rankLevel.None? ==> forall i :: 0 <= i < |ranks| ==> ranks[i] == 0
    requires AllBankGroups(t, m, base, ranks, splits).Ok?
    ensures RepeatsOn(t, AllBankGroups(t, m, base, ranks, splits).value.records, OpMacAb, rank)
         == RepeatsOn(t, m.records, OpMacAb, rank) + if rank in ranks then Sum(splits) else 0
    decreases |ranks|
  {
    if |ranks| > 0 {
      var v := RankAddress(t, base, ranks[0]);
      AllBankGroupRepeats(t, m, v, splits, rank);
      if t.rankLevel.Some? {
        RankOfRankAddress(t, base, ranks[0]);
      }
      AllBankGroupsRepeats(t, AllBankGroup(t, m, v, splits).value, base, ranks[1..], splits, rank);
    }
  }

  lemma OnlyTargetIsZero(t: Target, base: seq<int>, banks: seq<int>)
    requires ValidTarget(t) && |base| == t.config.size && BanksFit(t.config) && TargetRanks(t, base, banks).Ok?
    ensures var ranks := TargetRanks(t, base, banks).value;
      t.rankLevel.None? ==> forall i :: 0 <= i < |ranks| ==> ranks[i] == 0
  {
    TargetRanksMembers(t, base, banks);
    var ranks := TargetRanks(t, base, banks).value;
    forall i | t.rankLevel.None? && 0 <= i < |ranks|
      ensures ranks[i] == 0
    {
      assert ranks[i] in ranks;
    }
  }

  /** All-bank conservation: every rank some bank of the sequence lies in gets the same
      number n of PIM_MAC_AB issues, no other rank gets any, and n covers the requests
      with less than one issue to spare. */
  lemma AllBankWorkConserved(t: Target, m: Machine, s: Semantic, rank: int)
    requires ValidTarget(t) && Sized(t, m)
    requires PerBankKind(s.kind) && !s.accountingOnly && TakesAllBankPath(t.config, s)
    requires LowerRecord(t, m, s).Ok?
    ensures PimAddress(t.config, s, 0).Ok? && TargetRanks(t, PimAddress(t.config, s, 0).value, s.bankSequence).Ok?
    ensures var base := PimAddress(t.config, s, 0).value;
            var n := AllBankIssues(s);
            && RepeatsOn(t, LowerRecord(t, m, s).value.records, OpMacAb, rank)
            == RepeatsOn(t, m.records, OpMacAb, rank)
               + (if exists b :: b in s.bankSequence && TargetRank(t, base, b) == Ok(rank) then n else 0)
            && RequestCount(s) <= n * |s.bankSequence| < RequestCount(s) + |s.bankSequence|
  {
    var base := PimAddress(t.config, s, 0).value;
    var ranks := TargetRanks(t, base, s.bankSequence).value;
    MulPositive(s.numRequests, s.repeat);
    CeilDivBounds(RequestCount(s), |s.bankSequence|);
    TargetRanksAscending(t, base, s.bankSequence);
    TargetRanksMembers(t, base, s.bankSequence);
    OnlyTargetIsZero(t, base, s.bankSequence);
    SplitsSum(AllBankIssues(s), t.config.maxRepeatPerRecord);
    AllBankGroupsRepeats(t, m, base, ranks, Splits(AllBankIssues(s), t.config.maxRepeatPerRecord), rank);
  }

  // ----- a sequence of all bank units

  lemma {:induction false} AtLeastIndex(s: seq<int>, i: nat)
    requires Ascending(s) && i < |s| && s[0] >= 0
    ensures s[i] >= i
  {
    if i > 0 {
      AtLeastIndex(s, i - 1);
    }
  }

  lemma {:induction false} AscendingPrefix(s: seq<int>, n: nat, i: nat)
    requires Ascending(s) && i <= n && forall r :: r in s <==> 0 <= r < n
    ensures i <= |s| && forall j :: 0 <= j < i ==> s[j] == j
  {
    if i > 0 {
      AscendingPrefix(s, n, i - 1);
      assert i - 1 in s;
      var k :| 0 <= k < |s| && s[k] == i - 1;
      assert s[0] in s;
      AtLeastIndex(s, i - 1);
    }
  }

  lemma AscendingRange(s: seq<int>, n: nat)
    requires Ascending(s) && forall r :: r in s <==> 0 <= r < n
    ensures s == seq(n, i => i)
  {
    AscendingPrefix(s, n, n);
    if |s| > 0 {
      assert s[0] in s && s[|s| - 1] in s;
      AtLeastIndex(s, |s| - 1);
    }
  }

  lemma {:induction false} BanksHaveRanks(t: Target, base: seq<int>, banks: seq<int>)
    requires ValidTarget(t) && |base| == t.config.size && BanksFit(t.config) && t.config.positions.Some? && t.config.size > 0
    requires RankId(t, base).Ok?
    requires forall i :: 0 <= i < |banks| ==> 0 <= banks[i] < Product(t.config.counts.value)
    ensures TargetRanks(t, base, banks).Ok?
  {
    if |banks| > 0 {
      BanksHaveRanks(t, base, banks[..|banks| - 1]);
    }
  }

  lemma RankDigitBelow(t: Target, flat: int, own: int, k: nat)
    requires RankIsBankLevel(t, k)
    ensures 0 <= RankDigit(flat, t.config.positions.value, t.config.counts.value, t.rankLevel.value, own) < t.rankCount
  {
  }

  /** Rank is bank level `k`, and has its full size there. */
  predicate RankIsBankLevel(t: Target, k: nat) {
    && ValidTarget(t) && BanksFit(t.config) && t.config.positions.Some? && t.config.size > 0 && t.rankLevel.Some?
    && k < |t.config.positions.value| && t.config.positions.value[k] == t.rankLevel.value
    && t.config.counts.value[k] == t.rankCount
  }

  lemma RankIsTargeted(t: Target, base: seq<int>, banks: seq<int>, k: nat, r: int)
    requires RankIsBankLevel(t, k) && |base| == t.config.size && RankId(t, base).Ok? && TargetRanks(t, base, banks).Ok?
    requires forall b :: 0 <= b < Product(t.config.counts.value) ==> b in banks
    requires 0 <= r < t.rankCount
    ensures r in TargetRanks(t, base, banks).value
  {
    TargetRanksMembers(t, base, banks);
    var flat := EveryRankHasABank(t.config.positions.value, t.config.counts.value, t.rankLevel.value, k, r, base[t.rankLevel.value]);
    assert flat in banks && TargetRank(t, base, flat) == Ok(r);
  }

  lemma TargetIsRank(t: Target, base: seq<int>, banks: seq<int>, k: nat, r: int)
    requires RankIsBankLevel(t, k) && |base| == t.config.size && RankId(t, base).Ok? && TargetRanks(t, base, banks).Ok?
    requires r in TargetRanks(t, base, banks).value
    ensures 0 <= r < t.rankCount
  {
    TargetRanksMembers(t, base, banks);
    var b :| b in banks && TargetRank(t, base, b) == Ok(r);
    RankDigitBelow(t, b, base[t.rankLevel.value], k);
  }

  /** When Rank is a bank level, a sequence that names every bank unit, in any order,
      targets every rank once, in ascending order. */
  lemma AllBanksTargetEveryRank(t: Target, base: seq<int>, banks: seq<int>, k: nat)
    requires RankIsBankLevel(t, k) && |base| == t.config.size && RankId(t, base).Ok?
    requires forall i :: 0 <= i < |banks| ==> 0 <= banks[i] < Product(t.config.counts.value)
    requires forall b :: 0 <= b < Product(t.config.counts.value) ==> b in banks
    ensures TargetRanks(t, base, banks) == Ok(seq(t.rankCount, i => i))
  {
    BanksHaveRanks(t, base, banks);
    TargetRanksAscending(t, base, banks);
    var ranks := TargetRanks(t, base, banks).value;
    forall r
      ensures r in ranks <==> 0 <= r < t.rankCount
    {
      if 0 <= r < t.rankCount {
        RankIsTargeted(t, base, banks, k, r);
      } else if r in ranks {
        TargetIsRank(t, base, banks, k, r);
      }
    }
    AscendingRange(ranks, t.rankCount);
  }

  /** `list(range(total))` is such a sequence. */
  lemma RetargetedTargetsEveryRank(t: Target, base: seq<int>, total: nat, k: nat)
    requires RankIsBankLevel(t, k) && |base| == t.config.size && RankId(t, base).Ok?
    requires total == Product(t.config.counts.value)
    ensures TargetRanks(t, base, seq(total, i => i)) == Ok(seq(t.rankCount, i => i))
  {
    var banks := seq(total, i => i);
    forall b | 0 <= b < total
      ensures b in banks
    {
      assert banks[b] == b;
    }
    AllBanksTargetEveryRank(t, base, banks, k);
  }
}
