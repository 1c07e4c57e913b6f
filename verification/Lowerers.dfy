/** The lowering as it is written: closures that update the tracked modes and flags in
    place, append to the record list and bump the record number, inside loops that count
    work down.  Every method is proved to do what its function in Lowering.dfy says. */
module Lowerers {
  import opened Division
  import opened FlatBank
  import opened HostStream
  import opened Lowering
  import opened Results
  import opened Trace

  /** A method that either finished in state `after` or raised did what `f` says. */
  predicate Does(r: Result<int>, after: Machine, f: Result<Machine>) {
    match f
    case Ok(m) => r.Ok? && after == m
    case Err(e) => r == Err(e)
  }

  method SplitRepeat(repeat: int, maxRepeat: int) returns (r: Result<seq<int>>)
    ensures r == if repeat <= 0 || maxRepeat <= 0 then Err(BadArgument) else Ok(Splits(repeat, maxRepeat))
  {
    if repeat <= 0 || maxRepeat <= 0 {
      return Err(BadArgument);
    }
    var chunks: seq<int> := [];
    var remaining := repeat;
    while remaining > 0
      invariant Splits(repeat, maxRepeat) == chunks + Splits(remaining, maxRepeat)
    {
      var chunk := Min(maxRepeat, remaining);
      chunks := chunks + [chunk];
      remaining := remaining - chunk;
    }
    assert chunks + [] == chunks;
    return Ok(chunks);
  }

  method AddrVecFromSemantic(c: Config, s: Semantic, index: int) returns (r: Result<seq<int>>)
    ensures r == PimAddress(c, s, index)
  {
    if c.size <= 0 {
      return Err(BadArgument);
    }
    if !LevelsFit(c) {
      return Err(BadLevel);
    }
    if !BanksFit(c) {
      return Err(BadBankMap);
    }
    var av := new int[c.size](_ => 0);
    var phase := Quot(index, Max(1, s.burstLength));
    var span := if PerBankKind(s.kind) then Max(1, |s.bankSequence|) else 1;
    var depPhase := Quot(phase, span);
    var dependencies := Max(1, s.dependencyCount);
    var rowOffset := Rem((s.resolvedRow - s.rowStart) + Quot(depPhase, dependencies), Max(1, s.rowCount));
    var columnOffset := Rem((s.resolvedColumn - s.columnStart) + depPhase, dependencies);
    av[c.rowLevel] := s.rowStart + rowOffset;
    av[c.columnLevel] := s.columnStart + columnOffset;
    assert av[..] == RowColumn(c, s, index);
    if PerBankKind(s.kind) {
      if |s.bankSequence| == 0 {
        return Err(MissingBanks);
      }
      var flat := s.bankSequence[Rem(phase, |s.bankSequence|)];
      if flat < 0 {
        return Err(BankOutOfRange);
      }
      if c.positions.Some? {
        var placed := DecomposeFlatBank(flat, av, c.positions.value, c.counts.value, s.controllerOrder);
        if placed.Err? {
          return Err(placed.error);
        }
      } else {
        av[c.bankLevel] := flat;
      }
    } else if c.positions.None? {
      av[c.bankLevel] := 0;
    }
    return Ok(av[..]);
  }

  class Lowerer {
    const t: Target
    const rankModes: array<Mode>
    const loadReady: array<bool>
    var records: seq<Concrete>
    var nextId: nat

    ghost predicate Valid()
      reads this
    {
      && ValidTarget(t)
      && rankModes.Length == loadReady.Length == t.rankCount
      && nextId == |records|
    }

    ghost function State(): (m: Machine)
      requires Valid()
      reads this, rankModes, loadReady
      ensures Sized(t, m)
    {
      Machine(rankModes[..], loadReady[..], records)
    }

    constructor (target: Target)
      requires ValidTarget(target)
      ensures Valid() && t == target && State() == Start(target)
      ensures fresh(rankModes) && fresh(loadReady)
    {
      t := target;
      rankModes := new Mode[target.rankCount](_ => SB);
      loadReady := new bool[target.rankCount](_ => false);
      records := [];
      nextId := 0;
    }

    method AppendRecord(
      opcode: Opcode, v: seq<int>, repeat: int, host: Option<HostBytes>, interleave: Option<Interleave>)
      requires Valid()
      modifies this`records, this`nextId
      ensures Valid() && State() == Append(old(State()), opcode, v, repeat, host, interleave)
    {
      records := records + [Concrete(nextId, opcode, repeat, v, host, interleave)];
      nextId := nextId + 1;
    }

    method SetRank(rank: int, mode: Mode, ready: bool)
      requires Valid() && 0 <= rank < t.rankCount
      modifies rankModes, loadReady
      ensures Valid() && State() == Track(old(State()), rank, mode, ready)
    {
      rankModes[rank] := mode;
      loadReady[rank] := ready;
    }

    method TransitionToSingleBank(v: seq<int>) returns (r: Result<int>)
      requires Valid() && |v| == t.config.size
      modifies this`records, this`nextId, rankModes, loadReady
      ensures Valid() && Does(r, State(), ToSingleBank(t, old(State()), v))
    {
      var id := RankId(t, v);
      if id.Err? {
        return id;
      }
      if rankModes[id.value] != SB {
        AppendRecord(OpSB, v, 1, None, None);
        SetRank(id.value, SB, false);
      }
      return id;
    }

    method TransitionToHostAllBank(v: seq<int>) returns (r: Result<int>)
      requires Valid() && |v| == t.config.size
      modifies this`records, this`nextId, rankModes, loadReady
      ensures Valid() && Does(r, State(), ToHostAllBank(t, old(State()), v)) && (r.Ok? ==> r == RankId(t, v))
    {
      var id := RankId(t, v);
      if id.Err? {
        return id;
      }
      if rankModes[id.value] != HAB {
        AppendRecord(OpHAB, v, 1, None, None);
        SetRank(id.value, HAB, false);
      }
      return id;
    }

    method EnsureLoad(v: seq<int>) returns (r: Result<int>)
      requires Valid() && |v| == t.config.size
      modifies this`records, this`nextId, rankModes, loadReady
      ensures Valid() && Does(r, State(), EnsureAllBankLoad(t, old(State()), v)) && (r.Ok? ==> r == RankId(t, v))
    {
      r := TransitionToHostAllBank(v);
      if r.Err? {
        return;
      }
      if !loadReady[r.value] {
        AppendRecord(OpBcast, v, 1, None, None);
        loadReady[r.value] := true;
        assert rankModes[..][r.value := HAB] == rankModes[..];
      }
    }

    method TransitionToPimAllBank(v: seq<int>) returns (r: Result<int>)
      requires Valid() && |v| == t.config.size
      modifies this`records, this`nextId, rankModes, loadReady
      ensures Valid() && Does(r, State(), ToPimAllBank(t, old(State()), v)) && (r.Ok? ==> r == RankId(t, v))
    {
      r := RankId(t, v);
      if r.Err? {
        return;
      }
      if rankModes[r.value] != HabPim {
        if rankModes[r.value] != HAB || !loadReady[r.value] {
          return Err(BroadcastMissing);
        }
        AppendRecord(OpHabPim, v, 1, None, None);
        rankModes[r.value] := HabPim;
        assert loadReady[..][r.value := true] == loadReady[..];
      }
    }

    /** The inline split loop around PIM_MAC_AB. */
    method AppendInline(opcode: Opcode, v: seq<int>, repeat: int, maxRepeat: int)
      requires Valid() && maxRepeat > 0
      modifies this`records, this`nextId
      ensures Valid() && State() == AppendSplits(old(State()), opcode, v, Splits(repeat, maxRepeat))
    {
      var remaining := repeat;
      while remaining > 0
        invariant Valid()
        invariant AppendSplits(State(), opcode, v, Splits(remaining, maxRepeat))
               == AppendSplits(old(State()), opcode, v, Splits(repeat, maxRepeat))
      {
        var chunk := Min(maxRepeat, remaining);
        AppendRecord(opcode, v, chunk, None, None);
        assert Splits(remaining, maxRepeat)[1..] == Splits(remaining - chunk, maxRepeat);
        remaining := remaining - chunk;
      }
    }

    /** A list of chunks already split. */
    method AppendList(opcode: Opcode, v: seq<int>, splits: seq<int>)
      requires Valid()
      modifies this`records, this`nextId
      ensures Valid() && State() == AppendSplits(old(State()), opcode, v, splits)
    {
      assert splits[0..] == splits;
      for i := 0 to |splits|
        invariant Valid()
        invariant AppendSplits(State(), opcode, v, splits[i..]) == AppendSplits(old(State()), opcode, v, splits)
      {
        AppendRecord(opcode, v, splits[i], None, None);
        assert splits[i..][1..] == splits[i + 1..];
      }
    }

    method AppendCompactChunks(v: seq<int>, repeat: int, fields: Interleave)
      requires Valid()
      modifies this`records, this`nextId
      ensures Valid()
      ensures State() == AppendCompact(old(State()), v, Splits(repeat, t.config.maxRepeatPerRecord), fields)
    {
      var maxRepeat := t.config.maxRepeatPerRecord;
      var remaining, startIndex := repeat, fields.startIndex;
      while remaining > 0
        invariant Valid()
        invariant AppendCompact(State(), v, Splits(remaining, maxRepeat), fields.(startIndex := startIndex))
               == AppendCompact(old(State()), v, Splits(repeat, maxRepeat), fields)
      {
        var chunk := Min(maxRepeat, remaining);
        AppendRecord(OpMac, v, chunk, None, Some(fields.(startIndex := startIndex)));
        assert Splits(remaining, maxRepeat)[1..] == Splits(remaining - chunk, maxRepeat);
        remaining := remaining - chunk;
        startIndex := startIndex + chunk;
      }
    }

    // ----- host records

    method EmitChunks(opcode: Opcode, chunks: seq<Chunk>) returns (r: Result<int>)
      requires Valid()
      modifies this`records, this`nextId, rankModes, loadReady
      ensures Valid() && Does(r, State(), AppendChunks(t, old(State()), opcode, chunks))
    {
      assert chunks[0..] == chunks;
      for i := 0 to |chunks|
        invariant Valid()
        invariant AppendChunks(t, State(), opcode, chunks[i..]) == AppendChunks(t, old(State()), opcode, chunks)
      {
        var c := chunks[i];
        assert chunks[i..][0] == c && chunks[i..][1..] == chunks[i + 1..];
        var v := HostVector(t, c.base);
        if v.Err? {
          return Err(v.error);
        }
        var single := TransitionToSingleBank(v.value);
        if single.Err? {
          return single;
        }
        var stride := if c.repeat > 1 && c.stride > 0 then c.stride else 0;
        AppendRecord(opcode, v.value, c.repeat, Some(HostBytes(c.base, stride)), None);
      }
      return Ok(0);
    }

    method EmitHost(opcode: Opcode, base: int, stride: int, count: int, repeat: int) returns (r: Result<int>)
      requires Valid() && repeat >= 0
      modifies this`records, this`nextId, rankModes, loadReady
      ensures Valid() && Does(r, State(), HostRepeats(t, old(State()), opcode, base, stride, count, 0, repeat))
    {
      for repeatIndex := 0 to repeat
        invariant Valid()
        invariant HostRepeats(t, State(), opcode, base, stride, count, repeatIndex, repeat)
               == HostRepeats(t, old(State()), opcode, base, stride, count, 0, repeat)
      {
        var logicalBase := RepeatBase(base, stride, count, repeatIndex);
        var chunks := HostAddressChunks(logicalBase, stride, count, MAX_REPEAT, t.config.layout, t.config.policy);
        if chunks.Err? {
          return Err(chunks.error);
        }
        var emitted := EmitChunks(opcode, chunks.value);
        if emitted.Err? {
          return emitted;
        }
      }
      return Ok(0);
    }

    // ----- compute records

    method EmitAllBankGroup(v: seq<int>, repeat: int, maxRepeat: int) returns (r: Result<int>)
      requires Valid() && |v| == t.config.size && maxRepeat > 0
      modifies this`records, this`nextId, rankModes, loadReady
      ensures Valid() && Does(r, State(), AllBankGroup(t, old(State()), v, Splits(repeat, maxRepeat)))
    {
      var rank := EnsureLoad(v);
      if rank.Err? {
        return rank;
      }
      var pim := TransitionToPimAllBank(v);
      if pim.Err? {
        return pim;
      }
      AppendInline(OpMacAb, v, repeat, maxRepeat);
      AppendRecord(OpSB, v, 1, None, None);
      SetRank(rank.value, SB, false);
      return rank;
    }

    method EmitAllBank(base: seq<int>, ranks: seq<int>, issues: int) returns (r: Result<int>)
      requires Valid() && |base| == t.config.size
      modifies this`records, this`nextId, rankModes, loadReady
      ensures Valid()
      ensures Does(r, State(), AllBankGroups(t, old(State()), base, ranks, Splits(issues, t.config.maxRepeatPerRecord)))
    {
      ghost var splits := Splits(issues, t.config.maxRepeatPerRecord);
      assert ranks[0..] == ranks;
      for i := 0 to |ranks|
        invariant Valid()
        invariant AllBankGroups(t, State(), base, ranks[i..], splits) == AllBankGroups(t, old(State()), base, ranks, splits)
      {
        assert ranks[i..][1..] == ranks[i + 1..];
        var group := EmitAllBankGroup(RankAddress(t, base, ranks[i]), issues, t.config.maxRepeatPerRecord);
        if group.Err? {
          return group;
        }
      }
      return Ok(0);
    }

    method EmitSerial(s: Semantic) returns (r: Result<int>)
      requires Valid() && |s.bankSequence| > 0
      modifies this`records, this`nextId, rankModes, loadReady
      ensures Valid() && Does(r, State(), SerialBanks(t, old(State()), SerialTurns(t.config, s)))
    {
      var total, banks := RequestCount(s), |s.bankSequence|;
      ghost var turns := SerialTurns(t.config, s);
      for bankIndex := 0 to banks
        invariant Valid()
        invariant SerialBanks(t, State(), turns[bankIndex..]) == SerialBanks(t, old(State()), turns)
      {
        assert turns[bankIndex..][0] == turns[bankIndex] && turns[bankIndex..][1..] == turns[bankIndex + 1..];
        var share := Share(total, banks, bankIndex);
        if share != 0 {
          r := EmitBankPosition(s, bankIndex, share);
          if r.Err? {
            return;
          }
        }
      }
      return Ok(0);
    }

    method EmitBankPosition(s: Semantic, bankIndex: nat, share: int) returns (r: Result<int>)
      requires Valid()
      modifies this`records, this`nextId, rankModes, loadReady
      ensures Valid()
      ensures var v := PimAddress(t.config, s, bankIndex);
              var single := if v.Err? then Err(v.error) else ToSingleBank(t, old(State()), v.value);
              if single.Err? then r == Err(single.error)
              else r.Ok? && State() == AppendSplits(single.value, OpMac, v.value, Splits(share, MAX_REPEAT))
    {
      var v := AddrVecFromSemantic(t.config, s, bankIndex);
      if v.Err? {
        return Err(v.error);
      }
      r := TransitionToSingleBank(v.value);
      if r.Err? {
        return;
      }
      AppendInline(OpMac, v.value, share, MAX_REPEAT);
    }

    method EmitPerBank(s: Semantic, base: seq<int>, ranks: seq<int>) returns (r: Result<int>)
      requires Valid() && |base| == t.config.size && |s.bankSequence| > 0
      modifies this`records, this`nextId, rankModes, loadReady
      ensures Valid() && Does(r, State(), LowerPerBank(t, old(State()), s, base, ranks))
    {
      assert ranks[0..] == ranks;
      for i := 0 to |ranks|
        invariant Valid()
        invariant SingleBankRanks(t, State(), base, ranks[i..]) == SingleBankRanks(t, old(State()), base, ranks)
      {
        assert ranks[i..][1..] == ranks[i + 1..];
        r := TransitionToSingleBank(RankAddress(t, base, ranks[i]));
        if r.Err? {
          return;
        }
      }
      if |records| == 0 {
        AppendRecord(OpSB, base, 1, None, None);
      }
      if t.config.interleaveBanks && |s.bankSequence| > 1 {
        AppendCompactChunks(base, RequestCount(s), CompactFields(t.config, s));
        return Ok(0);
      }
      r := EmitSerial(s);
    }

    method EmitCompute(s: Semantic, base: seq<int>) returns (r: Result<int>)
      requires Valid() && |base| == t.config.size && |s.bankSequence| > 0 && BanksFit(t.config)
      modifies this`records, this`nextId, rankModes, loadReady
      ensures Valid() && Does(r, State(), LowerCompute(t, old(State()), s, base))
    {
      var ranks := TargetRanks(t, base, s.bankSequence);
      if ranks.Err? {
        return Err(ranks.error);
      }
      if TakesAllBankPath(t.config, s) {
        r := EmitAllBank(base, ranks.value, AllBankIssues(s));
      } else {
        r := EmitPerBank(s, base, ranks.value);
      }
    }

    // ----- all-bank loads and computes

    method EmitLoad(s: Semantic, base: seq<int>) returns (r: Result<int>)
      requires Valid() && |base| == t.config.size && RequestCount(s) > 0
      modifies this`records, this`nextId, rankModes, loadReady
      ensures Valid() && Does(r, State(), LowerLoad(t, old(State()), s, base))
    {
      if s.kind == PIMDataMove {
        if s.movement.kind == AccountingOnlyMove {
          return Ok(0);
        }
        if s.movement.kind != BroadcastLoad {
          return Err(UnsupportedMovement);
        }
      }
      var splits := SplitRepeat(RequestCount(s), MAX_REPEAT);
      for rank := 0 to t.rankCount
        invariant Valid()
        invariant LoadRanks(t, State(), base, rank, splits.value) == LoadRanks(t, old(State()), base, 0, splits.value)
      {
        r := EmitRankLoad(base, rank, splits.value);
        if r.Err? {
          return;
        }
      }
      return Ok(0);
    }

    method EmitRankLoad(base: seq<int>, rank: nat, splits: seq<int>) returns (r: Result<int>)
      requires Valid() && |base| == t.config.size && rank < t.rankCount
      modifies this`records, this`nextId, rankModes, loadReady
      ensures Valid()
      ensures r.Ok? ==> LoadRanks(t, State(), base, rank + 1, splits) == LoadRanks(t, old(State()), base, rank, splits)
      ensures r.Err? ==> LoadRanks(t, old(State()), base, rank, splits) == Err(r.error)
    {
      var v := RankAddress(t, base, rank);
      r := TransitionToHostAllBank(v);
      if r.Err? {
        return;
      }
      AppendList(OpBcast, v, splits);
      loadReady[rank] := true;
    }

    method EmitComputeAllRanks(v: seq<int>) returns (r: Result<int>)
      requires Valid() && |v| == t.config.size
      modifies this`records, this`nextId, rankModes, loadReady
      ensures Valid() && Does(r, State(), AllBankGroups(t, old(State()), v, AllRanks(t), [1]))
    {
      ghost var ranks := AllRanks(t);
      assert Splits(1, 1) == [1] + Splits(0, 1) == [1];
      assert ranks[0..] == ranks;
      for rank := 0 to t.rankCount
        invariant Valid()
        invariant AllBankGroups(t, State(), v, ranks[rank..], [1]) == AllBankGroups(t, old(State()), v, ranks, [1])
      {
        assert ranks[rank..][1..] == ranks[rank + 1..];
        r := EmitAllBankGroup(RankAddress(t, v, rank), 1, 1);
        if r.Err? {
          return;
        }
      }
      return Ok(0);
    }

    method EmitComputeAll(s: Semantic) returns (r: Result<int>)
      requires Valid() && s.numRequests > 0 && RequestCount(s) > 0
      modifies this`records, this`nextId, rankModes, loadReady
      ensures Valid() && Does(r, State(), ComputeRequests(t, old(State()), RequestAddresses(t.config, s)))
    {
      ghost var addresses := RequestAddresses(t.config, s);
      for requestIndex := 0 to RequestCount(s)
        invariant Valid()
        invariant ComputeRequests(t, State(), addresses[requestIndex..]) == ComputeRequests(t, old(State()), addresses)
      {
        var v := AddrVecFromSemantic(t.config, s, Rem(requestIndex, s.numRequests));
        assert v == addresses[requestIndex..][0] && addresses[requestIndex..][1..] == addresses[requestIndex + 1..];
        if v.Err? {
          return Err(v.error);
        }
        r := EmitComputeAllRanks(v.value);
        if r.Err? {
          return;
        }
      }
      return Ok(0);
    }

    // ----- one record, all records

    method Emit(s: Semantic) returns (r: Result<int>)
      requires Valid()
      modifies this`records, this`nextId, rankModes, loadReady
      ensures Valid() && Does(r, State(), LowerRecord(t, old(State()), s))
    {
      if s.kind == OtherKind || s.accountingOnly {
        return Ok(0);
      }
      if HostKind(s.kind) {
        var a := s.address;
        if a.base.None? || a.stride.None? || a.count.None? {
          return Err(MissingField);
        }
        if a.base.value < 0 {
          return Err(NegativeAddress);
        }
        if a.stride.value <= 0 || a.count.value <= 0 || s.repeat <= 0 {
          return Err(BadArgument);
        }
        var opcode := if s.kind == HostWrite then OpWrite else OpRead;
        r := EmitHost(opcode, a.base.value, a.stride.value, a.count.value, s.repeat);
        return;
      }
      if s.kind == PIMDataMove && s.movement.isWeight {
        if !t.config.materializeWeights {
          return Ok(0);
        }
        if t.config.policy != BoundedSurrogate {
          return Err(UnsupportedPolicy);
        }
        if s.movement.elements <= 0 || s.movement.txBytes <= 0 || s.repeat <= 0 {
          return Err(BadArgument);
        }
        r := EmitHost(OpWrite, WeightBase(s.movement), s.movement.txBytes, WeightCount(s.movement), s.repeat);
        return;
      }
      if s.numRequests <= 0 {
        return Err(BadArgument);
      }
      var base := AddrVecFromSemantic(t.config, s, 0);
      if base.Err? {
        return Err(base.error);
      }
      if s.repeat <= 0 {
        return Err(BadArgument);
      }
      MulPositive(s.numRequests, s.repeat);
      if PerBankKind(s.kind) {
        r := EmitCompute(s, base.value);
      } else if AllBankLoadKind(s.kind) {
        r := EmitLoad(s, base.value);
      } else {
        r := EmitComputeAll(s);
      }
    }
  }

  /** The function the exporter calls. */
  method LowerSemanticRecords(config: Config, semantics: seq<Semantic>) returns (r: Result<seq<Concrete>>)
    requires config.maxRepeatPerRecord > 0
    ensures r == Lower(config, semantics)
  {
    var target := Resolve(config);
    if target.Err? {
      return Err(target.error);
    }
    var lowerer := new Lowerer(target.value);
    assert semantics[0..] == semantics;
    for i := 0 to |semantics|
      invariant lowerer.Valid() && lowerer.t == target.value
      invariant fresh(lowerer) && fresh(lowerer.rankModes) && fresh(lowerer.loadReady)
      invariant LowerFrom(target.value, lowerer.State(), semantics[i..])
             == LowerFrom(target.value, Start(target.value), semantics)
    {
      assert semantics[i..][1..] == semantics[i + 1..];
      var emitted := lowerer.Emit(semantics[i]);
      if emitted.Err? {
        return Err(emitted.error);
      }
    }
    return Ok(lowerer.records);
  }
}
