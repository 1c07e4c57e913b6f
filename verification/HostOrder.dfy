/** Host records on devices with several ranks: which record lists replay all their host
    accesses in ranks that are in SB, read off the records without lowering them. */
module HostOrder {
  import opened Division
  import opened Emission
  import opened HostStream
  import opened Lowering
  import opened ModeBoundaries
  import opened ModeSafety
  import opened Results
  import opened Trace

  predicate Ranked(t: Target) {
    ValidTarget(t) && t.rankLevel.Some?
  }

  // ---- ranks outside SB, record by record ----

  /** The `i`-th address a chunk's record replays. */
  function ChunkAddress(c: Chunk, i: int): int {
    c.base + i * (if c.repeat > 1 && c.stride > 0 then c.stride else 0)
  }

  /** The rank of a byte address, if the layout maps it. */
  function RankOfByte(t: Target, address: int): set<int>
    requires Ranked(t)
  {
    var v := HostVector(t, address);
    if v.Ok? then {v.value[t.rankLevel.value]} else {}
  }

  /** Replaying the chunk never enters one of the ranks. */
  predicate Avoids(t: Target, c: Chunk, ranks: set<int>)
    requires Ranked(t)
  {
    forall i :: 0 <= i < c.repeat ==> RankOfByte(t, ChunkAddress(c, i)) !! ranks
  }

  /** Before each chunk the rank of its first address returns to SB, and no other. */
  predicate ChunksAvoid(t: Target, away: set<int>, chunks: seq<Chunk>)
    requires Ranked(t)
    decreases |chunks|
  {
    |chunks| == 0
    || (var left := away - RankOfByte(t, chunks[0].base); Avoids(t, chunks[0], left) && ChunksAvoid(t, left, chunks[1..]))
  }

  function ChunksLeave(t: Target, away: set<int>, chunks: seq<Chunk>): set<int>
    requires Ranked(t)
    decreases |chunks|
  {
    if |chunks| == 0 then away else ChunksLeave(t, away - RankOfByte(t, chunks[0].base), chunks[1..])
  }

  /** The chunks of all repetitions of a host stream. */
  function RepeatChunks(c: Config, base: int, stride: int, count: int, from: int, repeat: int): seq<Chunk>
    decreases repeat - from
  {
    if from >= repeat then []
    else
      var chunks := HostChunks(RepeatBase(base, stride, count, from), stride, count, MAX_REPEAT, c.layout, c.policy);
      (if chunks.Ok? then chunks.value else []) + RepeatChunks(c, base, stride, count, from + 1, repeat)
  }

  function RecordChunks(c: Config, s: Semantic): seq<Chunk> {
    var a, w := s.address, s.movement;
    if HostKind(s.kind) then
      if a.base.Some? && a.stride.Some? && a.count.Some?
      then RepeatChunks(c, a.base.value, a.stride.value, a.count.value, 0, s.repeat) else []
    else if w.txBytes > 0 then RepeatChunks(c, WeightBase(w), w.txBytes, WeightCount(w), 0, s.repeat) else []
  }

  /** The rank of a serial position that gets a request. */
  function TurnRank(t: Target, turn: Turn): set<int>
    requires ValidTarget(t) && ProperTurn(turn, t.config.size)
  {
    if turn.share == 0 || turn.address.Err? then {}
    else
      var rank := RankId(t, turn.address.value);
      if rank.Ok? then {rank.value} else {}
  }

  function TurnRanks(t: Target, turns: seq<Turn>): set<int>
    requires ValidTarget(t) && forall i :: 0 <= i < |turns| ==> ProperTurn(turns[i], t.config.size)
    decreases |turns|
  {
    if |turns| == 0 then {} else TurnRank(t, turns[0]) + TurnRanks(t, turns[1..])
  }

  function Members(ranks: seq<int>): set<int> {
    set r | r in ranks
  }

  /** The ranks a compute record returns to SB. */
  function ComputeRanks(t: Target, s: Semantic): set<int>
    requires ValidTarget(t)
  {
    var c, base := t.config, PimAddress(t.config, s, 0);
    if base.Err? || |s.bankSequence| == 0 then {}
    else
      var ranks := TargetRanks(t, base.value, s.bankSequence);
      (if ranks.Ok? then Members(ranks.value) else {})
      + (if c.interleaveBanks && |s.bankSequence| > 1 then {} else TurnRanks(t, SerialTurns(c, s)))
  }

  /** The ranks outside SB after a record, if those of `away` were before it. */
  function AwayAfter(t: Target, away: set<int>, s: Semantic): set<int>
    requires Ranked(t)
  {
    var c := t.config;
    if WritesHost(c, s) then ChunksLeave(t, away, RecordChunks(c, s))
    else if LoadsBroadcast(c, s) then Members(AllRanks(t))
    else if s.accountingOnly || s.kind == OtherKind || s.kind == PIMDataMove then away
    else if PerBankKind(s.kind) then away - ComputeRanks(t, s)
    else {}
  }

  /** No host record of the list enters a rank that is outside SB. */
  predicate HostAvoids(t: Target, away: set<int>, semantics: seq<Semantic>)
    requires Ranked(t)
    decreases |semantics|
  {
    |semantics| == 0
    || ((WritesHost(t.config, semantics[0]) ==> ChunksAvoid(t, away, RecordChunks(t.config, semantics[0])))
        && HostAvoids(t, AwayAfter(t, away, semantics[0]), semantics[1..]))
  }

  // ---- the tracked ranks ----

  function Away(m: Machine): set<int> {
    set r | 0 <= r < |m.modes| && m.modes[r] != SB
  }

  lemma SingleBankAway(t: Target, m: Machine, v: seq<int>)
    requires ValidTarget(t) && Sized(t, m) && |v| == t.config.size && ToSingleBank(t, m, v).Ok?
    ensures Away(ToSingleBank(t, m, v).value) == Away(m) - {RankId(t, v).value}
  {
  }

  lemma {:induction false} SingleBanksAway(t: Target, m: Machine, base: seq<int>, ranks: seq<int>, done: Machine)
    requires Ranked(t) && Sized(t, m) && |base| == t.config.size && SingleBankRanks(t, m, base, ranks) == Ok(done)
    ensures Away(done) == Away(m) - Members(ranks)
    decreases |ranks|
  {
    if |ranks| > 0 {
      var v := RankAddress(t, base, ranks[0]);
      SingleBankAway(t, m, v);
      RankOfRankAddress(t, base, ranks[0]);
      SingleBanksAway(t, ToSingleBank(t, m, v).value, base, ranks[1..], done);
      assert ranks == [ranks[0]] + ranks[1..];
    }
  }

  lemma GroupAway(t: Target, m: Machine, v: seq<int>, splits: seq<int>)
    requires ValidTarget(t) && Sized(t, m) && |v| == t.config.size && AllBankGroup(t, m, v, splits).Ok?
    ensures RankId(t, v).Ok? && Away(AllBankGroup(t, m, v, splits).value) == Away(m) - {RankId(t, v).value}
  {
  }

  lemma {:induction false} GroupsAway(t: Target, m: Machine, base: seq<int>, ranks: seq<int>, splits: seq<int>, done: Machine)
    requires Ranked(t) && Sized(t, m) && |base| == t.config.size && AllBankGroups(t, m, base, ranks, splits) == Ok(done)
    ensures Away(done) == Away(m) - Members(ranks)
    decreases |ranks|
  {
    if |ranks| > 0 {
      var v := RankAddress(t, base, ranks[0]);
      GroupAway(t, m, v, splits);
      RankOfRankAddress(t, base, ranks[0]);
      GroupsAway(t, AllBankGroup(t, m, v, splits).value, base, ranks[1..], splits, done);
      assert ranks == [ranks[0]] + ranks[1..];
    }
  }

  lemma {:induction false} SerialAway(t: Target, m: Machine, turns: seq<Turn>, done: Machine)
    requires ValidTarget(t) && Sized(t, m) && forall i :: 0 <= i < |turns| ==> ProperTurn(turns[i], t.config.size)
    requires SerialBanks(t, m, turns) == Ok(done)
    ensures Away(done) == Away(m) - TurnRanks(t, turns)
    decreases |turns|
  {
    if |turns| > 0 {
      if turns[0].share == 0 {
        SerialAway(t, m, turns[1..], done);
      } else {
        var v := turns[0].address.value;
        var single := ToSingleBank(t, m, v).value;
        SingleBankAway(t, m, v);
        SerialAway(t, AppendSplits(single, OpMac, v, Splits(turns[0].share, MAX_REPEAT)), turns[1..], done);
      }
    }
  }

  lemma {:induction false} LoadsAway(t: Target, m: Machine, base: seq<int>, rank: int, splits: seq<int>, done: Machine)
    requires Ranked(t) && Sized(t, m) && |base| == t.config.size && 0 <= rank <= t.rankCount
    requires LoadRanks(t, m, base, rank, splits) == Ok(done)
    requires forall r :: 0 <= r < rank ==> m.modes[r] == HAB
    ensures Away(done) == Members(AllRanks(t))
    decreases t.rankCount - rank
  {
    if rank < t.rankCount {
      var v := RankAddress(t, base, rank);
      var loaded := AppendSplits(ToHostAllBank(t, m, v).value, OpBcast, v, splits);
      LoadsAway(t, loaded.(ready := loaded.ready[rank := true]), base, rank + 1, splits, done);
    } else {
      EveryRankIsMember(t);
    }
  }

  lemma EveryRankIsMember(t: Target)
    requires ValidTarget(t)
    ensures forall r :: r in Members(AllRanks(t)) <==> 0 <= r < t.rankCount
  {
    forall r | 0 <= r < t.rankCount
      ensures r in AllRanks(t)
    {
      assert AllRanks(t)[r] == r;
    }
  }

  lemma {:induction false} ComputeRequestsAway(t: Target, m: Machine, addresses: seq<Result<seq<int>>>, done: Machine)
    requires Ranked(t) && Sized(t, m)
    requires forall i :: 0 <= i < |addresses| && addresses[i].Ok? ==> |addresses[i].value| == t.config.size
    requires forall i :: 0 <= i < |addresses| && addresses[i].Err? ==> addresses[i].error != BroadcastMissing
    requires ComputeRequests(t, m, addresses) == Ok(done) && (|addresses| > 0 || Away(m) == {})
    ensures Away(done) == {}
    decreases |addresses|
  {
    if |addresses| > 0 {
      var next := AllBankGroups(t, m, addresses[0].value, AllRanks(t), [1]).value;
      GroupsAway(t, m, addresses[0].value, AllRanks(t), [1], next);
      EveryRankIsMember(t);
      ComputeRequestsAway(t, next, addresses[1..], done);
    }
  }

  lemma ComputeAway(t: Target, m: Machine, s: Semantic, base: seq<int>, done: Machine)
    requires Ranked(t) && Sized(t, m) && PimAddress(t.config, s, 0) == Ok(base) && PerBankKind(s.kind)
    requires LowerCompute(t, m, s, base) == Ok(done)
    ensures Away(done) == Away(m) - ComputeRanks(t, s)
  {
    var c := t.config;
    var ranks := TargetRanks(t, base, s.bankSequence).value;
    if TakesAllBankPath(c, s) {
      GroupsAway(t, m, base, ranks, Splits(AllBankIssues(s), c.maxRepeatPerRecord), done);
    } else {
      var single := SingleBankRanks(t, m, base, ranks).value;
      SingleBanksAway(t, m, base, ranks, single);
      var begun := if |single.records| == 0 then Append(single, OpSB, base, 1, None, None) else single;
      if !(c.interleaveBanks && |s.bankSequence| > 1) {
        SerialAway(t, begun, SerialTurns(c, s), done);
      }
    }
  }

  lemma LoadAway(t: Target, m: Machine, s: Semantic, base: seq<int>, done: Machine)
    requires Ranked(t) && Sized(t, m) && |base| == t.config.size && AllBankLoadKind(s.kind) && LowerLoad(t, m, s, base) == Ok(done)
    requires !s.accountingOnly && !(s.kind == PIMDataMove && s.movement.isWeight)
    ensures Away(done) == if LoadsBroadcast(t.config, s) then Members(AllRanks(t)) else Away(m)
  {
    if LoadsBroadcast(t.config, s) {
      LoadsAway(t, m, base, 0, Splits(RequestCount(s), MAX_REPEAT), done);
    }
  }

  lemma RequestsAway(t: Target, m: Machine, s: Semantic, done: Machine)
    requires Ranked(t) && Sized(t, m) && s.numRequests >= 1 && s.repeat >= 1
    requires ComputeRequests(t, m, RequestAddresses(t.config, s)) == Ok(done)
    ensures Away(done) == {}
  {
    MulPositive(s.numRequests, s.repeat);
    ComputeRequestsAway(t, m, RequestAddresses(t.config, s), done);
  }

  lemma OtherRecordAway(t: Target, m: Machine, s: Semantic, done: Machine)
    requires Ranked(t) && Sized(t, m) && !WritesHost(t.config, s) && LowerRecord(t, m, s) == Ok(done)
    ensures Away(done) == AwayAfter(t, Away(m), s)
  {
    if s.kind != OtherKind && !s.accountingOnly && !(s.kind == PIMDataMove && s.movement.isWeight) {
      var base := PimAddress(t.config, s, 0).value;
      if PerBankKind(s.kind) {
        ComputeAway(t, m, s, base, done);
      } else if AllBankLoadKind(s.kind) {
        LoadAway(t, m, s, base, done);
      } else {
        RequestsAway(t, m, s, done);
      }
    }
  }

  // ---- host records ----

  predicate IsHostRecord(rec: Concrete) {
    HostOpcode(rec.opcode) && rec.host.Some?
  }

  lemma HostIssuesAppend(t: Target, records: seq<Concrete>, rec: Concrete)
    requires Ranked(t)
    ensures HostIssuesInSB(t, records + [rec])
       <==> HostIssuesInSB(t, records)
            && (IsHostRecord(rec) ==> IssuesInSB(t, Replay(true, View(t.rankLevel, false), records), rec))
  {
    var longer := records + [rec];
    assert longer[..|records|] == records && longer[|records|] == rec;
    assert forall n :: 0 <= n < |records| ==> longer[n] == records[n] && longer[..n] == records[..n];
  }

  function NoHost(): Concrete -> bool {
    (rec: Concrete) => !HostOpcode(rec.opcode)
  }

  lemma OtherRecordsExtend(t: Target, m: Machine, next: Machine)
    requires Ranked(t) && Adds(m, next, NoHost())
    ensures HostIssuesInSB(t, next.records) <==> HostIssuesInSB(t, m.records)
  {
    var records := next.records;
    assert forall n :: 0 <= n < |m.records| ==> records[..|m.records|][n] == records[n] && records[..n] == m.records[..n];
  }

  /** The ranks outside SB are the ones replay finds there. */
  lemma IssuesAvoid(t: Target, m: Machine, c: Chunk, rec: Concrete)
    requires Ranked(t) && Inv(t, false, m) && rec.repeat == c.repeat
    requires rec.host == Some(HostBytes(c.base, if c.repeat > 1 && c.stride > 0 then c.stride else 0))
    ensures IssuesInSB(t, Replay(true, View(t.rankLevel, false), m.records), rec) <==> Avoids(t, c, Away(m))
  {
    var state := Replay(true, View(t.rankLevel, false), m.records).value;
    forall i
      ensures HostAddress(rec, i) == ChunkAddress(c, i)
    {
    }
    forall r
      ensures Get(state, r).mode == SB <==> r !in Away(m)
    {
      assert Get(state, r) == Tracked(m, r);
    }
    if IssuesInSB(t, Some(state), rec) {
      forall i | 0 <= i < c.repeat
        ensures RankOfByte(t, ChunkAddress(c, i)) !! Away(m)
      {
        assert HostAddress(rec, i) == ChunkAddress(c, i);
      }
    }
    if Avoids(t, c, Away(m)) {
      forall i | 0 <= i < rec.repeat && HostVector(t, HostAddress(rec, i)).Ok?
        ensures Get(state, HostVector(t, HostAddress(rec, i)).value[t.rankLevel.value]).mode == SB
      {
        assert RankOfByte(t, ChunkAddress(c, i)) !! Away(m);
      }
    }
  }

  lemma ChunkStep(t: Target, m: Machine, opcode: Opcode, v: seq<int>, c: Chunk, next: Machine)
    requires Ranked(t) && Inv(t, false, m) && HostOpcode(opcode) && HostVector(t, c.base) == Ok(v)
    requires ToSingleBank(t, m, v).Ok? && next == AppendHost(ToSingleBank(t, m, v).value, opcode, v, c)
    ensures var left := Away(m) - RankOfByte(t, c.base);
      && Inv(t, false, next) && Away(next) == left
      && (HostIssuesInSB(t, next.records) <==> HostIssuesInSB(t, m.records) && Avoids(t, c, left))
  {
    var single := ToSingleBank(t, m, v).value;
    var rec := next.records[|single.records|];
    ToSingleBankKeeps(t, false, m, v);
    ChunkKeeps(t, false, m, opcode, v, c);
    SingleBankAway(t, m, v);
    HostIssuesAppend(t, m.records, Concrete(|m.records|, OpSB, 1, v, None, None));
    HostIssuesAppend(t, single.records, rec);
    IssuesAvoid(t, single, c, rec);
  }

  lemma {:induction false} ChunksStep(t: Target, m: Machine, opcode: Opcode, chunks: seq<Chunk>, done: Machine)
    requires Ranked(t) && Inv(t, false, m) && HostOpcode(opcode) && AppendChunks(t, m, opcode, chunks) == Ok(done)
    ensures Inv(t, false, done) && Away(done) == ChunksLeave(t, Away(m), chunks)
    ensures HostIssuesInSB(t, done.records) <==> HostIssuesInSB(t, m.records) && ChunksAvoid(t, Away(m), chunks)
    decreases |chunks|
  {
    if |chunks| > 0 {
      var v := HostVector(t, chunks[0].base).value;
      var next := AppendHost(ToSingleBank(t, m, v).value, opcode, v, chunks[0]);
      ChunkStep(t, m, opcode, v, chunks[0], next);
      ChunksStep(t, next, opcode, chunks[1..], done);
    }
  }

  lemma JoinTail<T>(a: seq<T>, b: seq<T>)
    requires |a| > 0
    ensures (a + b)[0] == a[0] && (a + b)[1..] == a[1..] + b
  {
  }

  lemma FirstChunk(t: Target, m: Machine, opcode: Opcode, chunks: seq<Chunk>) returns (next: Machine)
    requires ValidTarget(t) && Sized(t, m) && |chunks| > 0 && AppendChunks(t, m, opcode, chunks).Ok?
    ensures Sized(t, next) && AppendChunks(t, m, opcode, chunks) == AppendChunks(t, next, opcode, chunks[1..])
    ensures forall other: seq<Chunk> :: |other| > 0 && other[0] == chunks[0] ==>
      AppendChunks(t, m, opcode, other) == AppendChunks(t, next, opcode, other[1..])
  {
    var v := HostVector(t, chunks[0].base).value;
    next := AppendHost(ToSingleBank(t, m, v).value, opcode, v, chunks[0]);
  }

  lemma {:induction false} ChunksJoin(t: Target, m: Machine, opcode: Opcode, a: seq<Chunk>, b: seq<Chunk>, middle: Machine)
    requires ValidTarget(t) && Sized(t, m) && AppendChunks(t, m, opcode, a) == Ok(middle)
    ensures AppendChunks(t, m, opcode, a + b) == AppendChunks(t, middle, opcode, b)
    decreases |a|
  {
    if |a| == 0 {
      assert a + b == b;
    } else {
      var next := FirstChunk(t, m, opcode, a);
      ChunksJoin(t, next, opcode, a[1..], b, middle);
      JoinTail(a, b);
    }
  }

  lemma {:induction false} RepeatsAreChunks(
    t: Target, m: Machine, opcode: Opcode, base: int, stride: int, count: int, from: int, repeat: int, done: Machine)
    requires ValidTarget(t) && Sized(t, m) && HostRepeats(t, m, opcode, base, stride, count, from, repeat) == Ok(done)
    ensures AppendChunks(t, m, opcode, RepeatChunks(t.config, base, stride, count, from, repeat)) == Ok(done)
    decreases repeat - from
  {
    if from < repeat {
      var c := t.config;
      var chunks := HostChunks(RepeatBase(base, stride, count, from), stride, count, MAX_REPEAT, c.layout, c.policy).value;
      var next := AppendChunks(t, m, opcode, chunks).value;
      RepeatsAreChunks(t, next, opcode, base, stride, count, from + 1, repeat, done);
      ChunksJoin(t, m, opcode, chunks, RepeatChunks(c, base, stride, count, from + 1, repeat), next);
    }
  }

  lemma HostRecordStep(t: Target, m: Machine, s: Semantic, done: Machine)
    requires Ranked(t) && Inv(t, false, m) && WritesHost(t.config, s) && LowerRecord(t, m, s) == Ok(done)
    ensures Inv(t, false, done) && Away(done) == AwayAfter(t, Away(m), s)
    ensures HostIssuesInSB(t, done.records)
       <==> HostIssuesInSB(t, m.records) && ChunksAvoid(t, Away(m), RecordChunks(t.config, s))
  {
    var opcode := if HostKind(s.kind) && s.kind != HostWrite then OpRead else OpWrite;
    var a, w := s.address, s.movement;
    if HostKind(s.kind) {
      RepeatsAreChunks(t, m, opcode, a.base.value, a.stride.value, a.count.value, 0, s.repeat, done);
    } else {
      RepeatsAreChunks(t, m, opcode, WeightBase(w), w.txBytes, WeightCount(w), 0, s.repeat, done);
    }
    ChunksStep(t, m, opcode, RecordChunks(t.config, s), done);
  }

  lemma OtherRecordStep(t: Target, m: Machine, s: Semantic, done: Machine)
    requires Ranked(t) && Inv(t, false, m) && !WritesHost(t.config, s) && LowerRecord(t, m, s) == Ok(done)
    ensures Inv(t, false, done) && Away(done) == AwayAfter(t, Away(m), s)
    ensures HostIssuesInSB(t, done.records) <==> HostIssuesInSB(t, m.records)
  {
    assert AllowsRecord(t, s, NoHost());
    RecordAdds(t, m, s, NoHost());
    OtherRecordsExtend(t, m, done);
    LowerRecordKeeps(t, false, m, s);
    OtherRecordAway(t, m, s, done);
  }

  lemma {:induction false} ListStep(t: Target, m: Machine, semantics: seq<Semantic>, done: Machine)
    requires Ranked(t) && Inv(t, false, m) && LowerFrom(t, m, semantics) == Ok(done)
    ensures HostIssuesInSB(t, done.records) <==> HostIssuesInSB(t, m.records) && HostAvoids(t, Away(m), semantics)
    decreases |semantics|
  {
    if |semantics| > 0 {
      var s := semantics[0];
      var next := LowerRecord(t, m, s).value;
      if WritesHost(t.config, s) {
        HostRecordStep(t, m, s, next);
      } else {
        OtherRecordStep(t, m, s, next);
      }
      ListStep(t, next, semantics[1..], done);
    }
  }

  lemma ListFromStart(t: Target, semantics: seq<Semantic>, done: Machine)
    requires Ranked(t) && LowerFrom(t, Start(t), semantics) == Ok(done)
    ensures HostIssuesInSB(t, done.records) <==> HostAvoids(t, {}, semantics)
  {
    StartAgrees(t, false);
    assert Away(Start(t)) == {};
    ListStep(t, Start(t), semantics, done);
  }

  /** On any number of ranks: a record list replays every host access in a rank that is
      in SB if and only if no host record of the list enters a rank that an earlier
      broadcast put into HAB and nothing has returned since. */
  lemma HostSafeExactly(config: Config, semantics: seq<Semantic>)
    requires config.maxRepeatPerRecord > 0 && Lower(config, semantics).Ok? && config.layout.Some?
    ensures Ranked(Resolve(config).value)
    ensures HostIssuesInSB(Resolve(config).value, Lower(config, semantics).value)
       <==> HostAvoids(Resolve(config).value, {}, semantics)
  {
    var t := Resolve(config).value;
    ResolvedTargetIsValid(config);
    ListFromStart(t, semantics, LowerFrom(t, Start(t), semantics).value);
  }

  // ---- lists that access the host first ----

  /** No broadcast is loaded before a host access. */
  predicate HostFirst(c: Config, semantics: seq<Semantic>) {
    forall i, j :: 0 <= i < j < |semantics| && LoadsBroadcast(c, semantics[i]) ==> !WritesHost(c, semantics[j])
  }

  lemma {:induction false} NoneAway(t: Target, chunks: seq<Chunk>)
    requires Ranked(t)
    ensures ChunksAvoid(t, {}, chunks) && ChunksLeave(t, {}, chunks) == {}
    decreases |chunks|
  {
    if |chunks| > 0 {
      assert {} - RankOfByte(t, chunks[0].base) == {};
      NoneAway(t, chunks[1..]);
    }
  }

  lemma {:induction false} HostFirstAvoids(t: Target, away: set<int>, semantics: seq<Semantic>)
    requires Ranked(t) && HostFirst(t.config, semantics)
    requires away == {} || forall i :: 0 <= i < |semantics| ==> !WritesHost(t.config, semantics[i])
    ensures HostAvoids(t, away, semantics)
    decreases |semantics|
  {
    if |semantics| > 0 {
      NoneAway(t, RecordChunks(t.config, semantics[0]));
      HostFirstAvoids(t, AwayAfter(t, away, semantics[0]), semantics[1..]);
    }
  }

  /** A record list that accesses the host before it loads a broadcast never touches a
      rank outside SB: every other kind of record returns the ranks it used to SB. */
  lemma HostFirstIsSafe(config: Config, semantics: seq<Semantic>)
    requires config.maxRepeatPerRecord > 0 && Lower(config, semantics).Ok? && config.layout.Some?
    requires HostFirst(Resolve(config).value.config, semantics)
    ensures ValidTarget(Resolve(config).value)
    ensures HostIssuesInSB(Resolve(config).value, Lower(config, semantics).value)
  {
    HostSafeExactly(config, semantics);
    HostFirstAvoids(Resolve(config).value, {}, semantics);
  }
}
