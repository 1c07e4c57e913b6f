/** What each kind of semantic record issues: which kinds and which `mac_mode` broadcast,
    which address single banks, and what loads and all-bank computes do on every rank. */
module KindEffects {
  import opened Division
  import opened HostStream
  import opened Lowering
  import opened MacReplay
  import opened ModeSafety
  import opened Results
  import opened Sequences
  import opened Trace
  import opened Work

  // ---- what a rank gets ----

  /** The coordinates a record sends with `opcode` to `rank`. */
  function SentTo(t: Target, rec: Concrete, opcode: Opcode, rank: int): seq<seq<int>> {
    if rec.opcode == opcode && RanksOf(rec, View(t.rankLevel, false)) == {rank} then Copies(rec.addrVec, rec.repeat) else []
  }

  function IssuedOn(t: Target, records: seq<Concrete>, opcode: Opcode, rank: int): seq<seq<int>>
    decreases |records|
  {
    if |records| == 0 then []
    else IssuedOn(t, records[..|records| - 1], opcode, rank) + SentTo(t, records[|records| - 1], opcode, rank)
  }

  lemma {:induction false} IssuedAppend(t: Target, records: seq<Concrete>, rec: Concrete, opcode: Opcode, rank: int)
    ensures IssuedOn(t, records + [rec], opcode, rank) == IssuedOn(t, records, opcode, rank) + SentTo(t, rec, opcode, rank)
  {
    assert (records + [rec])[..|records|] == records;
  }

  /** `next` has the MACs of `m`, and sends the same with `opcode` to `rank`. */
  predicate Unmoved(t: Target, m: Machine, next: Machine, opcode: Opcode, rank: int) {
    IssuedOn(t, next.records, opcode, rank) == IssuedOn(t, m.records, opcode, rank)
  }

  lemma {:induction false} UnmovedTwice(t: Target, a: Machine, b: Machine, c: Machine, opcode: Opcode, rank: int)
    requires Unmoved(t, a, b, opcode, rank) && Unmoved(t, b, c, opcode, rank)
    ensures Unmoved(t, a, c, opcode, rank)
  {
  }

  lemma {:induction false} OtherOpcode(t: Target, m: Machine, other: Opcode, v: seq<int>, repeat: int, interleave: Option<Interleave>, opcode: Opcode, rank: int)
    requires other != opcode
    ensures Unmoved(t, m, Append(m, other, v, repeat, None, interleave), opcode, rank)
    ensures other != OpMac ==> MacTrace(Append(m, other, v, repeat, None, interleave).records) == MacTrace(m.records)
  {
    var rec := Concrete(|m.records|, other, repeat, v, None, interleave);
    IssuedAppend(t, m.records, rec, opcode, rank);
    MacTraceAppend(m.records, rec);
  }

  lemma {:induction false} CopiesJoin<T>(v: T, a: int, b: int)
    requires a >= 0 && b >= 0
    ensures Copies(v, a) + Copies(v, b) == Copies(v, a + b)
  {
  }

  /** What `other` at `v` sends to `rank` with `opcode`, `n` times. */
  function SentFrom(t: Target, other: Opcode, v: seq<int>, n: int, opcode: Opcode, rank: int): seq<seq<int>>
    requires ValidTarget(t) && |v| == t.config.size && RankId(t, v).Ok?
  {
    if other == opcode && RankId(t, v).value == rank then Copies(v, n) else []
  }

  lemma {:induction false} OneSplit(t: Target, m: Machine, other: Opcode, v: seq<int>, repeat: int, opcode: Opcode, rank: int)
    requires ValidTarget(t) && |v| == t.config.size && RankId(t, v).Ok? && repeat >= 1
    ensures var next := Append(m, other, v, repeat, None, None);
      && IssuedOn(t, next.records, opcode, rank) == IssuedOn(t, m.records, opcode, rank) + SentFrom(t, other, v, repeat, opcode, rank)
      && (other != OpMac ==> MacTrace(next.records) == MacTrace(m.records))
  {
    var rec := Concrete(|m.records|, other, repeat, v, None, None);
    IssuedAppend(t, m.records, rec, opcode, rank);
    OneRank(t, false, rec);
    MacTraceAppend(m.records, rec);
  }

  lemma {:induction false} SentJoins(t: Target, other: Opcode, v: seq<int>, a: int, b: int, opcode: Opcode, rank: int, before: seq<seq<int>>)
    requires ValidTarget(t) && |v| == t.config.size && RankId(t, v).Ok? && a >= 0 && b >= 0
    ensures before + SentFrom(t, other, v, a, opcode, rank) + SentFrom(t, other, v, b, opcode, rank)
         == before + SentFrom(t, other, v, a + b, opcode, rank)
  {
    CopiesJoin(v, a, b);
    ConcatAssociative(before, SentFrom(t, other, v, a, opcode, rank), SentFrom(t, other, v, b, opcode, rank));
  }

  /** Splits of one opcode, all on the rank of `v`. */
  lemma {:induction false} SplitsIssued(t: Target, m: Machine, other: Opcode, v: seq<int>, splits: seq<int>, opcode: Opcode, rank: int)
    requires ValidTarget(t) && |v| == t.config.size && RankId(t, v).Ok? && forall i :: 0 <= i < |splits| ==> splits[i] >= 1
    ensures Sum(splits) >= 0
    ensures IssuedOn(t, AppendSplits(m, other, v, splits).records, opcode, rank)
         == IssuedOn(t, m.records, opcode, rank) + SentFrom(t, other, v, Sum(splits), opcode, rank)
    ensures other != OpMac ==> MacTrace(AppendSplits(m, other, v, splits).records) == MacTrace(m.records)
    decreases |splits|
  {
    if |splits| > 0 {
      OneSplit(t, m, other, v, splits[0], opcode, rank);
      SplitsIssued(t, Append(m, other, v, splits[0], None, None), other, v, splits[1..], opcode, rank);
      SentJoins(t, other, v, splits[0], Sum(splits[1..]), opcode, rank, IssuedOn(t, m.records, opcode, rank));
    }
  }

  // ---- the per-bank paths ----

  lemma {:induction false} SingleBankSends(t: Target, m: Machine, v: seq<int>, opcode: Opcode, rank: int)
    requires opcode != OpSB && ValidTarget(t) && Sized(t, m) && |v| == t.config.size && ToSingleBank(t, m, v).Ok?
    ensures Unmoved(t, m, ToSingleBank(t, m, v).value, opcode, rank)
  {
    OtherOpcode(t, m, OpSB, v, 1, None, opcode, rank);
  }

  lemma {:induction false} SingleBanksSend(t: Target, m: Machine, base: seq<int>, ranks: seq<int>, opcode: Opcode, rank: int)
    requires opcode != OpSB && ValidTarget(t) && Sized(t, m) && |base| == t.config.size && SingleBankRanks(t, m, base, ranks).Ok?
    ensures Unmoved(t, m, SingleBankRanks(t, m, base, ranks).value, opcode, rank)
    decreases |ranks|
  {
    if |ranks| > 0 {
      var v := RankAddress(t, base, ranks[0]);
      SingleBankSends(t, m, v, opcode, rank);
      SingleBanksSend(t, ToSingleBank(t, m, v).value, base, ranks[1..], opcode, rank);
    }
  }

  lemma {:induction false} CompactSends(t: Target, m: Machine, v: seq<int>, splits: seq<int>, fields: Interleave, opcode: Opcode, rank: int)
    requires opcode != OpMac
    ensures Unmoved(t, m, AppendCompact(m, v, splits, fields), opcode, rank)
    decreases |splits|
  {
    if |splits| > 0 {
      var next, rest := Append(m, OpMac, v, splits[0], None, Some(fields)), fields.(startIndex := fields.startIndex + splits[0]);
      OtherOpcode(t, m, OpMac, v, splits[0], Some(fields), opcode, rank);
      CompactSends(t, next, v, splits[1..], rest, opcode, rank);
      UnmovedTwice(t, m, next, AppendCompact(next, v, splits[1..], rest), opcode, rank);
    }
  }

  lemma {:induction false} SerialSends(t: Target, m: Machine, turns: seq<Turn>, opcode: Opcode, rank: int)
    requires opcode != OpMac && opcode != OpSB && ValidTarget(t) && Sized(t, m)
    requires forall i :: 0 <= i < |turns| ==> ProperTurn(turns[i], t.config.size)
    requires SerialBanks(t, m, turns).Ok?
    ensures Unmoved(t, m, SerialBanks(t, m, turns).value, opcode, rank)
    decreases |turns|
  {
    if |turns| > 0 {
      if turns[0].share == 0 {
        SerialSends(t, m, turns[1..], opcode, rank);
      } else {
        var v := turns[0].address.value;
        var splits := Splits(turns[0].share, MAX_REPEAT);
        SingleBankSends(t, m, v, opcode, rank);
        SplitsIssued(t, ToSingleBank(t, m, v).value, OpMac, v, splits, opcode, rank);
        SerialSends(t, AppendSplits(ToSingleBank(t, m, v).value, OpMac, v, splits), turns[1..], opcode, rank);
      }
    }
  }

  lemma {:induction false} PerBankSends(t: Target, m: Machine, s: Semantic, base: seq<int>, ranks: seq<int>, rank: int)
    requires ValidTarget(t) && Sized(t, m) && |base| == t.config.size && |s.bankSequence| > 0
    requires LowerPerBank(t, m, s, base, ranks).Ok?
    ensures Unmoved(t, m, LowerPerBank(t, m, s, base, ranks).value, OpMacAb, rank)
  {
    var c, single := t.config, SingleBankRanks(t, m, base, ranks).value;
    SingleBanksSend(t, m, base, ranks, OpMacAb, rank);
    var begun := if |single.records| == 0 then Append(single, OpSB, base, 1, None, None) else single;
    OtherOpcode(t, single, OpSB, base, 1, None, OpMacAb, rank);
    if c.interleaveBanks && |s.bankSequence| > 1 {
      CompactSends(t, begun, base, Splits(RequestCount(s), c.maxRepeatPerRecord), CompactFields(c, s), OpMacAb, rank);
    } else {
      SerialSends(t, begun, SerialTurns(c, s), OpMacAb, rank);
    }
  }

  // ---- the all-bank path ----

  lemma {:induction false} LoadedSends(t: Target, m: Machine, v: seq<int>, rank: int)
    requires ValidTarget(t) && Sized(t, m) && |v| == t.config.size && EnsureAllBankLoad(t, m, v).Ok?
    ensures Unmoved(t, m, EnsureAllBankLoad(t, m, v).value, OpMacAb, rank)
    ensures MacTrace(EnsureAllBankLoad(t, m, v).value.records) == MacTrace(m.records)
  {
    OtherOpcode(t, m, OpHAB, v, 1, None, OpMacAb, rank);
    OtherOpcode(t, ToHostAllBank(t, m, v).value, OpBcast, v, 1, None, OpMacAb, rank);
  }

  lemma {:induction false} PimSends(t: Target, m: Machine, v: seq<int>, rank: int)
    requires ValidTarget(t) && Sized(t, m) && |v| == t.config.size && ToPimAllBank(t, m, v).Ok?
    ensures Unmoved(t, m, ToPimAllBank(t, m, v).value, OpMacAb, rank)
    ensures MacTrace(ToPimAllBank(t, m, v).value.records) == MacTrace(m.records)
  {
    OtherOpcode(t, m, OpHabPim, v, 1, None, OpMacAb, rank);
  }

  lemma {:induction false} CloseSends(t: Target, m: Machine, v: seq<int>, own: int, rank: int)
    requires Sized(t, m) && 0 <= own < t.rankCount
    ensures Unmoved(t, m, CloseAllBank(t, m, v, own), OpMacAb, rank)
    ensures MacTrace(CloseAllBank(t, m, v, own).records) == MacTrace(m.records)
  {
    OtherOpcode(t, m, OpSB, v, 1, None, OpMacAb, rank);
  }

  /** An all-bank group sends its MACs to the rank of `v`, and no per-bank MAC. */
  lemma {:induction false} GroupSends(t: Target, m: Machine, v: seq<int>, splits: seq<int>, rank: int, done: Machine)
    requires ValidTarget(t) && Sized(t, m) && |v| == t.config.size && AllBankGroup(t, m, v, splits) == Ok(done)
    requires forall i :: 0 <= i < |splits| ==> splits[i] >= 1
    ensures RankId(t, v).Ok? && Sum(splits) >= 0
    ensures IssuedOn(t, done.records, OpMacAb, rank)
         == IssuedOn(t, m.records, OpMacAb, rank) + if RankId(t, v).value == rank then Copies(v, Sum(splits)) else []
    ensures MacTrace(done.records) == MacTrace(m.records)
  {
    var loaded := EnsureAllBankLoad(t, m, v).value;
    var pim := ToPimAllBank(t, loaded, v).value;
    var work := AppendSplits(pim, OpMacAb, v, splits);
    assert done == CloseAllBank(t, work, v, RankId(t, v).value);
    LoadedSends(t, m, v, rank);
    PimSends(t, loaded, v, rank);
    SplitsIssued(t, pim, OpMacAb, v, splits, OpMacAb, rank);
    CloseSends(t, work, v, RankId(t, v).value, rank);
  }

  /** Rank `rank` of the address, if the device tells ranks apart. */
  lemma {:induction false} GroupsSend(t: Target, m: Machine, base: seq<int>, ranks: seq<int>, splits: seq<int>, rank: int, done: Machine)
    requires ValidTarget(t) && Sized(t, m) && |base| == t.config.size && Ascending(ranks)
    requires t.rankLevel.None? ==> forall i :: 0 <= i < |ranks| ==> ranks[i] == 0
    requires AllBankGroups(t, m, base, ranks, splits) == Ok(done) && forall i :: 0 <= i < |splits| ==> splits[i] >= 1
    ensures Sum(splits) >= 0
    ensures IssuedOn(t, done.records, OpMacAb, rank)
         == IssuedOn(t, m.records, OpMacAb, rank) + if rank in ranks then Copies(RankAddress(t, base, rank), Sum(splits)) else []
    ensures MacTrace(done.records) == MacTrace(m.records)
    decreases |ranks|
  {
    SumNonNegative(splits);
    if |ranks| > 0 {
      var v := RankAddress(t, base, ranks[0]);
      GroupSends(t, m, v, splits, rank, AllBankGroup(t, m, v, splits).value);
      if t.rankLevel.Some? {
        RankOfRankAddress(t, base, ranks[0]);
      }
      GroupsSend(t, AllBankGroup(t, m, v, splits).value, base, ranks[1..], splits, rank, done);
    }
  }

  // ---- kinds and modes ----

  /** Weights are the same for every bank, so their operands can be broadcast; cached
      keys and values differ from bank to bank. */
  predicate WeightStationary(kind: Kind) {
    kind == FFNProjection || kind == MoERouter || kind == MoEExpertFFN
  }

  predicate DataStationary(kind: Kind) {
    kind == AttentionScore || kind == AttentionContext || kind == PIMCompute
  }

  /** The record makes every rank some bank of its sequence lies in execute the same
      number of all-bank MACs, just enough for its requests, and no bank its own. */
  ghost predicate Broadcasts(t: Target, m: Machine, s: Semantic, next: Machine)
    requires ValidTarget(t)
  {
    && PimAddress(t.config, s, 0).Ok? && |s.bankSequence| > 0
    && MacTrace(next.records) == MacTrace(m.records)
    && exists n: nat :: s.numRequests * s.repeat <= n * |s.bankSequence| < s.numRequests * s.repeat + |s.bankSequence|
         && forall rank :: BroadcastOn(t, m, s, next, n, rank)
  }

  ghost predicate BroadcastOn(t: Target, m: Machine, s: Semantic, next: Machine, n: nat, rank: int)
    requires ValidTarget(t) && PimAddress(t.config, s, 0).Ok?
  {
    var base := PimAddress(t.config, s, 0).value;
    IssuedOn(t, next.records, OpMacAb, rank)
    == IssuedOn(t, m.records, OpMacAb, rank)
       + if exists b :: b in s.bankSequence && TargetRank(t, base, b) == Ok(rank) then Copies(RankAddress(t, base, rank), n) else []
  }

  /** The record issues one per-bank MAC for each request, and no all-bank MAC. */
  ghost predicate Addresses(t: Target, m: Machine, s: Semantic, next: Machine) {
    && |MacTrace(next.records)| == |MacTrace(m.records)| + s.numRequests * s.repeat
    && forall rank :: Unmoved(t, m, next, OpMacAb, rank)
  }

  lemma {:induction false} BroadcastPath(t: Target, m: Machine, s: Semantic, next: Machine)
    requires ValidTarget(t) && Sized(t, m) && LowerRecord(t, m, s) == Ok(next)
    requires PerBankKind(s.kind) && !s.accountingOnly && TakesAllBankPath(t.config, s)
    ensures Broadcasts(t, m, s, next)
  {
    var base := PimAddress(t.config, s, 0).value;
    var ranks := TargetRanks(t, base, s.bankSequence).value;
    var n := AllBankIssues(s);
    AllBankWorkConserved(t, m, s, 0);
    TargetRanksAscending(t, base, s.bankSequence);
    TargetRanksMembers(t, base, s.bankSequence);
    OnlyTargetIsZero(t, base, s.bankSequence);
    SplitsSum(n, t.config.maxRepeatPerRecord);
    forall rank
      ensures BroadcastOn(t, m, s, next, n, rank)
    {
      GroupsSend(t, m, base, ranks, Splits(n, t.config.maxRepeatPerRecord), rank, next);
    }
    GroupsSend(t, m, base, ranks, Splits(n, t.config.maxRepeatPerRecord), 0, next);
  }

  lemma {:induction false} PerBankPath(t: Target, m: Machine, s: Semantic, next: Machine)
    requires ValidTarget(t) && Sized(t, m) && LowerRecord(t, m, s) == Ok(next)
    requires t.config.depth >= 1 || !t.config.interleaveBanks || |s.bankSequence| <= 1
    requires PerBankKind(s.kind) && !s.accountingOnly && !TakesAllBankPath(t.config, s)
    ensures Addresses(t, m, s, next)
  {
    var base := PimAddress(t.config, s, 0).value;
    var ranks := TargetRanks(t, base, s.bankSequence).value;
    forall rank
      ensures Unmoved(t, m, next, OpMacAb, rank)
    {
      PerBankSends(t, m, s, base, ranks, rank);
    }
    if TakesCompactPath(t.config, s) {
      CompactRecordIssuesRun(t, m, s);
    } else {
      var issues := SerialRecordConservesRequests(t, m, s);
      assert |issues| == |multiset(issues)| == |multiset(RoundRobin(t.config, s, RequestCount(s)))|;
    }
  }

  /** Which compute records broadcast, by kind and mode: with interleaving and more than
      one bank, the weight-stationary kinds in `per_kind` mode and every kind in
      `all_bank` mode; all others address single banks (a compact record with a dwell,
      as the frontend asks of it). */
  lemma {:induction false} ComputeKinds(t: Target, m: Machine, s: Semantic, next: Machine)
    requires ValidTarget(t) && Sized(t, m) && LowerRecord(t, m, s) == Ok(next)
    requires !s.accountingOnly && (WeightStationary(s.kind) || DataStationary(s.kind)) && t.config.macMode != UnknownMacMode
    ensures var c := t.config;
      if c.interleaveBanks && |s.bankSequence| > 1
         && (c.macMode == AllBank || (c.macMode == PerKind && WeightStationary(s.kind)))
      then Broadcasts(t, m, s, next)
      else c.depth >= 1 || !c.interleaveBanks || |s.bankSequence| <= 1 ==> Addresses(t, m, s, next)
  {
    if TakesAllBankPath(t.config, s) {
      BroadcastPath(t, m, s, next);
    } else if t.config.depth >= 1 || !t.config.interleaveBanks || |s.bankSequence| <= 1 {
      PerBankPath(t, m, s, next);
    }
  }

  // ---- loads ----

  lemma {:induction false} LoadOne(t: Target, m: Machine, base: seq<int>, own: int, splits: seq<int>, rank: int) returns (loaded: Machine)
    requires ValidTarget(t) && Sized(t, m) && |base| == t.config.size && 0 <= own < t.rankCount
    requires ToHostAllBank(t, m, RankAddress(t, base, own)).Ok? && forall i :: 0 <= i < |splits| ==> splits[i] >= 1
    ensures var v := RankAddress(t, base, own);
      Sum(splits) >= 0 && loaded == AppendSplits(ToHostAllBank(t, m, v).value, OpBcast, v, splits)
      && IssuedOn(t, loaded.records, OpBcast, rank)
      == IssuedOn(t, m.records, OpBcast, rank) + (if rank == own then Copies(v, Sum(splits)) else [])
      && MacTrace(loaded.records) == MacTrace(m.records)
  {
    var v := RankAddress(t, base, own);
    var hab := ToHostAllBank(t, m, v).value;
    OtherOpcode(t, m, OpHAB, v, 1, None, OpBcast, rank);
    RankOfRankAddress(t, base, own);
    SplitsIssued(t, hab, OpBcast, v, splits, OpBcast, rank);
    loaded := AppendSplits(hab, OpBcast, v, splits);
  }

  /** A load sends its operand to every rank as often as the record has requests. */
  lemma {:induction false} LoadsSend(t: Target, m: Machine, base: seq<int>, from: int, splits: seq<int>, rank: int, done: Machine)
    requires ValidTarget(t) && Sized(t, m) && |base| == t.config.size && 0 <= from <= t.rankCount
    requires LoadRanks(t, m, base, from, splits) == Ok(done) && forall i :: 0 <= i < |splits| ==> splits[i] >= 1
    ensures Sum(splits) >= 0
    ensures IssuedOn(t, done.records, OpBcast, rank)
         == IssuedOn(t, m.records, OpBcast, rank)
            + if from <= rank < t.rankCount then Copies(RankAddress(t, base, rank), Sum(splits)) else []
    ensures MacTrace(done.records) == MacTrace(m.records)
    decreases t.rankCount - from
  {
    SumNonNegative(splits);
    if from < t.rankCount {
      var v := RankAddress(t, base, from);
      var loaded := LoadOne(t, m, base, from, splits, rank);
      LoadsSend(t, loaded.(ready := loaded.ready[from := true]), base, from + 1, splits, rank, done);
    }
  }

  /** PIMLoadAll, and PIMDataMove of a broadcast operand. */
  lemma {:induction false} LoadKinds(t: Target, m: Machine, s: Semantic, next: Machine, rank: int)
    requires ValidTarget(t) && Sized(t, m) && LowerRecord(t, m, s) == Ok(next) && !s.accountingOnly
    requires s.kind == PIMLoadAll || (s.kind == PIMDataMove && !s.movement.isWeight && s.movement.kind == BroadcastLoad)
    requires 0 <= rank < t.rankCount
    ensures PimAddress(t.config, s, 0).Ok?
    ensures IssuedOn(t, next.records, OpBcast, rank)
         == IssuedOn(t, m.records, OpBcast, rank) + Copies(RankAddress(t, PimAddress(t.config, s, 0).value, rank), s.numRequests * s.repeat)
    ensures MacTrace(next.records) == MacTrace(m.records)
  {
    MulPositive(s.numRequests, s.repeat);
    SplitsSum(RequestCount(s), MAX_REPEAT);
    LoadsSend(t, m, PimAddress(t.config, s, 0).value, 0, Splits(RequestCount(s), MAX_REPEAT), rank, next);
  }

  // ---- all-bank computes ----

  /** Coordinates of the requests of a record on one rank, `numRequests` addresses over
      and over for each repeat. */
  function RequestsOnRank(t: Target, s: Semantic, rank: int, n: nat): seq<seq<int>>
    requires ValidTarget(t) && s.numRequests > 0
  {
    seq(n, i requires 0 <= i < n => OnRank(t, PimAddress(t.config, s, Rem(i, s.numRequests)), rank))
  }

  function OnRank(t: Target, address: Result<seq<int>>, rank: int): seq<int>
    requires ValidTarget(t)
  {
    if address.Ok? && |address.value| == t.config.size then RankAddress(t, address.value, rank) else []
  }

  lemma {:induction false} AllRanksAscend(t: Target)
    requires ValidTarget(t)
    ensures Ascending(AllRanks(t)) && forall r :: r in AllRanks(t) <==> 0 <= r < t.rankCount
    ensures t.rankLevel.None? ==> forall i :: 0 <= i < |AllRanks(t)| ==> AllRanks(t)[i] == 0
  {
    forall r | 0 <= r < t.rankCount
      ensures r in AllRanks(t)
    {
      assert AllRanks(t)[r] == r;
    }
  }

  lemma {:induction false} OneRequest(t: Target, m: Machine, v: seq<int>, rank: int, next: Machine)
    requires ValidTarget(t) && Sized(t, m) && |v| == t.config.size && AllBankGroups(t, m, v, AllRanks(t), [1]) == Ok(next)
    requires 0 <= rank < t.rankCount
    ensures IssuedOn(t, next.records, OpMacAb, rank) == IssuedOn(t, m.records, OpMacAb, rank) + [RankAddress(t, v, rank)]
    ensures MacTrace(next.records) == MacTrace(m.records)
  {
    AllRanksAscend(t);
    OneCopy(RankAddress(t, v, rank));
    GroupsSend(t, m, v, AllRanks(t), [1], rank, next);
  }

  lemma {:induction false} OneCopy<T>(v: T)
    ensures Sum([1]) == 1 && Copies(v, 1) == [v]
  {
    assert [1][..0] == [];
  }

  /** The addresses on one rank, those without one left out. */
  function AllOnRank(t: Target, addresses: seq<Result<seq<int>>>, rank: int): seq<seq<int>>
    requires ValidTarget(t)
  {
    seq(|addresses|, i requires 0 <= i < |addresses| => OnRank(t, addresses[i], rank))
  }

  lemma {:induction false} FirstOnRank(t: Target, addresses: seq<Result<seq<int>>>, rank: int)
    requires ValidTarget(t) && |addresses| > 0 && addresses[0].Ok? && |addresses[0].value| == t.config.size
    ensures AllOnRank(t, addresses, rank) == [RankAddress(t, addresses[0].value, rank)] + AllOnRank(t, addresses[1..], rank)
  {
  }

  lemma {:induction false} ComputeRequestsSend(t: Target, m: Machine, addresses: seq<Result<seq<int>>>, rank: int, done: Machine)
    requires ValidTarget(t) && Sized(t, m) && 0 <= rank < t.rankCount
    requires forall i :: 0 <= i < |addresses| && addresses[i].Ok? ==> |addresses[i].value| == t.config.size
    requires forall i :: 0 <= i < |addresses| && addresses[i].Err? ==> addresses[i].error != BroadcastMissing
    requires ComputeRequests(t, m, addresses) == Ok(done)
    ensures IssuedOn(t, done.records, OpMacAb, rank) == IssuedOn(t, m.records, OpMacAb, rank) + AllOnRank(t, addresses, rank)
    ensures MacTrace(done.records) == MacTrace(m.records)
    decreases |addresses|
  {
    if |addresses| > 0 {
      var v := addresses[0].value;
      var next := AllBankGroups(t, m, v, AllRanks(t), [1]).value;
      OneRequest(t, m, v, rank, next);
      ComputeRequestsSend(t, next, addresses[1..], rank, done);
      FirstOnRank(t, addresses, rank);
      ConcatAssociative(IssuedOn(t, m.records, OpMacAb, rank), [RankAddress(t, v, rank)], AllOnRank(t, addresses[1..], rank));
    }
  }

  /** PIMComputeAll: every rank executes the record's requests in order, each at its own
      coordinates, and no bank a MAC of its own. */
  lemma {:induction false} ComputeAllKind(t: Target, m: Machine, s: Semantic, next: Machine, rank: int)
    requires ValidTarget(t) && Sized(t, m) && LowerRecord(t, m, s) == Ok(next) && !s.accountingOnly
    requires s.kind == PIMComputeAll && 0 <= rank < t.rankCount
    ensures s.numRequests > 0 && s.numRequests * s.repeat >= 1
    ensures IssuedOn(t, next.records, OpMacAb, rank)
         == IssuedOn(t, m.records, OpMacAb, rank) + RequestsOnRank(t, s, rank, s.numRequests * s.repeat)
    ensures MacTrace(next.records) == MacTrace(m.records)
  {
    MulPositive(s.numRequests, s.repeat);
    var addresses := RequestAddresses(t.config, s);
    ComputeRequestsSend(t, m, addresses, rank, next);
    assert AllOnRank(t, addresses, rank) == RequestsOnRank(t, s, rank, s.numRequests * s.repeat);
  }

  // ---- host records and records without effect ----

  /** A HostRead reads and a HostWrite writes its own stream, and neither does the other. */
  lemma {:induction false} HostKinds(t: Target, m: Machine, s: Semantic, next: Machine)
    requires ValidTarget(t) && Sized(t, m) && LowerRecord(t, m, s) == Ok(next) && !s.accountingOnly
    requires s.kind == HostRead || s.kind == HostWrite
    ensures s.address.base.Some? && s.address.stride.Some? && s.address.count.Some?
    ensures Applicable(t.config.policy, t.config.layout) && s.repeat * s.address.count.value >= 1
    ensures var stream := Stream(s.address.base.value, s.address.stride.value, s.repeat * s.address.count.value,
                                 t.config.policy, t.config.layout);
      && HostTrace(OpRead, next.records) == HostTrace(OpRead, m.records) + (if s.kind == HostRead then stream else [])
      && HostTrace(OpWrite, next.records) == HostTrace(OpWrite, m.records) + (if s.kind == HostWrite then stream else [])
  {
    HostRecordReplaysItsStream(OpRead, t, m, s);
    HostRecordReplaysItsStream(OpWrite, t, m, s);
  }

  /** Accounting records, weights that stay resident and unknown kinds emit nothing. */
  lemma {:induction false} SilentKinds(t: Target, m: Machine, s: Semantic)
    requires ValidTarget(t) && Sized(t, m)
    requires s.accountingOnly || s.kind == OtherKind
          || (s.kind == PIMDataMove && s.movement.isWeight && !t.config.materializeWeights)
    ensures LowerRecord(t, m, s) == Ok(m)
  {
  }
}
