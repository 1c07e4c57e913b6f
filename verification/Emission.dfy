/** What the branches of the lowering that touch no host data append to a trace, and
    which of them leave every rank in SB. */
module Emission {
  import opened Lowering
  import opened Results
  import opened Trace

  predicate HostOpcode(opcode: Opcode) {
    opcode == OpRead || opcode == OpWrite
  }

  predicate AllIn(m: Machine, mode: Mode) {
    forall r :: 0 <= r < |m.modes| ==> m.modes[r] == mode
  }

  /** `next` continues the trace of `m` with records that are `ok`. */
  ghost predicate Adds(m: Machine, next: Machine, ok: Concrete -> bool) {
    && |m.records| <= |next.records| && next.records[..|m.records|] == m.records
    && forall n :: |m.records| <= n < |next.records| ==> ok(next.records[n])
  }

  lemma AddsTwice(a: Machine, b: Machine, c: Machine, ok: Concrete -> bool)
    requires Adds(a, b, ok) && Adds(b, c, ok)
    ensures Adds(a, c, ok)
  {
    assert c.records[..|b.records|][..|a.records|] == c.records[..|a.records|];
    forall n | |a.records| <= n < |c.records|
      ensures ok(c.records[n])
    {
      if n < |b.records| {
        assert c.records[..|b.records|][n] == b.records[n];
      }
    }
  }

  function BankMapOf(c: Config): Option<(seq<int>, seq<int>)> {
    if c.positions.Some? && c.counts.Some? then Some((c.positions.value, c.counts.value)) else None
  }

  /** What the lowering puts into a record without host data at coordinates `v`. */
  predicate MayEmit(c: Config, v: seq<int>, rec: Concrete) {
    && rec.addrVec == v && !HostOpcode(rec.opcode)
    && (rec.interleave.Some? ==> rec.interleave.value.banks == BankMapOf(c))
  }

  ghost predicate Allows(c: Config, v: seq<int>, ok: Concrete -> bool) {
    forall rec: Concrete :: MayEmit(c, v, rec) ==> ok(rec)
  }

  /** So are they at every rank of `base`. */
  ghost predicate AllowsRanks(t: Target, base: seq<int>, ok: Concrete -> bool)
    requires ValidTarget(t) && |base| == t.config.size
  {
    Allows(t.config, base, ok) && forall r :: Allows(t.config, RankAddress(t, base, r), ok)
  }

  // ---- single steps ----

  lemma AppendAdds(c: Config, m: Machine, opcode: Opcode, v: seq<int>, repeat: int, interleave: Option<Interleave>, ok: Concrete -> bool)
    requires Allows(c, v, ok) && !HostOpcode(opcode)
    requires interleave.Some? ==> interleave.value.banks == BankMapOf(c)
    ensures Adds(m, Append(m, opcode, v, repeat, None, interleave), ok)
  {
    assert MayEmit(c, v, Concrete(|m.records|, opcode, repeat, v, None, interleave));
  }

  lemma {:induction false} SplitsAdd(c: Config, m: Machine, opcode: Opcode, v: seq<int>, splits: seq<int>, ok: Concrete -> bool)
    requires Allows(c, v, ok) && !HostOpcode(opcode)
    ensures Adds(m, AppendSplits(m, opcode, v, splits), ok)
    decreases |splits|
  {
    if |splits| > 0 {
      var next := Append(m, opcode, v, splits[0], None, None);
      AppendAdds(c, m, opcode, v, splits[0], None, ok);
      SplitsAdd(c, next, opcode, v, splits[1..], ok);
      AddsTwice(m, next, AppendSplits(m, opcode, v, splits), ok);
    }
  }

  lemma {:induction false} CompactAdds(c: Config, m: Machine, v: seq<int>, splits: seq<int>, fields: Interleave, ok: Concrete -> bool)
    requires Allows(c, v, ok) && fields.banks == BankMapOf(c)
    ensures Adds(m, AppendCompact(m, v, splits, fields), ok)
    decreases |splits|
  {
    if |splits| > 0 {
      var next := Append(m, OpMac, v, splits[0], None, Some(fields));
      AppendAdds(c, m, OpMac, v, splits[0], Some(fields), ok);
      CompactAdds(c, next, v, splits[1..], fields.(startIndex := fields.startIndex + splits[0]), ok);
      AddsTwice(m, next, AppendCompact(m, v, splits, fields), ok);
    }
  }

  lemma SingleBankAdds(t: Target, m: Machine, v: seq<int>, ok: Concrete -> bool)
    requires ValidTarget(t) && Sized(t, m) && |v| == t.config.size && ToSingleBank(t, m, v).Ok? && Allows(t.config, v, ok)
    ensures Adds(m, ToSingleBank(t, m, v).value, ok)
    ensures AllIn(m, SB) ==> AllIn(ToSingleBank(t, m, v).value, SB)
  {
    AppendAdds(t.config, m, OpSB, v, 1, None, ok);
  }

  lemma HostAllBankAdds(t: Target, m: Machine, v: seq<int>, ok: Concrete -> bool)
    requires ValidTarget(t) && Sized(t, m) && |v| == t.config.size && ToHostAllBank(t, m, v).Ok? && Allows(t.config, v, ok)
    ensures Adds(m, ToHostAllBank(t, m, v).value, ok)
  {
    AppendAdds(t.config, m, OpHAB, v, 1, None, ok);
  }

  lemma LoadedAdds(t: Target, m: Machine, v: seq<int>, ok: Concrete -> bool)
    requires ValidTarget(t) && Sized(t, m) && |v| == t.config.size && EnsureAllBankLoad(t, m, v).Ok? && Allows(t.config, v, ok)
    ensures Adds(m, EnsureAllBankLoad(t, m, v).value, ok)
  {
    HostAllBankAdds(t, m, v, ok);
    var hab := ToHostAllBank(t, m, v).value;
    AppendAdds(t.config, hab, OpBcast, v, 1, None, ok);
    AddsTwice(m, hab, EnsureAllBankLoad(t, m, v).value, ok);
  }

  lemma PimAllBankAdds(t: Target, m: Machine, v: seq<int>, ok: Concrete -> bool)
    requires ValidTarget(t) && Sized(t, m) && |v| == t.config.size && ToPimAllBank(t, m, v).Ok? && Allows(t.config, v, ok)
    ensures Adds(m, ToPimAllBank(t, m, v).value, ok)
  {
    AppendAdds(t.config, m, OpHabPim, v, 1, None, ok);
  }

  /** An all-bank group ends with its rank in SB and moves no other. */
  lemma GroupModes(t: Target, m: Machine, v: seq<int>, splits: seq<int>)
    requires ValidTarget(t) && Sized(t, m) && |v| == t.config.size && AllBankGroup(t, m, v, splits).Ok?
    ensures AllIn(m, SB) ==> AllIn(AllBankGroup(t, m, v, splits).value, SB)
  {
  }

  lemma GroupAdds(t: Target, m: Machine, v: seq<int>, splits: seq<int>, ok: Concrete -> bool)
    requires ValidTarget(t) && Sized(t, m) && |v| == t.config.size && AllBankGroup(t, m, v, splits).Ok? && Allows(t.config, v, ok)
    ensures Adds(m, AllBankGroup(t, m, v, splits).value, ok)
    ensures AllIn(m, SB) ==> AllIn(AllBankGroup(t, m, v, splits).value, SB)
  {
    var loaded := EnsureAllBankLoad(t, m, v).value;
    var pim := ToPimAllBank(t, loaded, v).value;
    var work := AppendSplits(pim, OpMacAb, v, splits);
    LoadedAdds(t, m, v, ok);
    PimAllBankAdds(t, loaded, v, ok);
    AddsTwice(m, loaded, pim, ok);
    SplitsAdd(t.config, pim, OpMacAb, v, splits, ok);
    AddsTwice(m, pim, work, ok);
    AppendAdds(t.config, work, OpSB, v, 1, None, ok);
    AddsTwice(m, work, AllBankGroup(t, m, v, splits).value, ok);
    GroupModes(t, m, v, splits);
  }

  // ---- loops ----

  lemma {:induction false} GroupsAdd(t: Target, m: Machine, base: seq<int>, ranks: seq<int>, splits: seq<int>, ok: Concrete -> bool)
    requires ValidTarget(t) && Sized(t, m) && |base| == t.config.size && AllBankGroups(t, m, base, ranks, splits).Ok?
    requires AllowsRanks(t, base, ok)
    ensures Adds(m, AllBankGroups(t, m, base, ranks, splits).value, ok)
    ensures AllIn(m, SB) ==> AllIn(AllBankGroups(t, m, base, ranks, splits).value, SB)
    decreases |ranks|
  {
    if |ranks| > 0 {
      var v := RankAddress(t, base, ranks[0]);
      var next := AllBankGroup(t, m, v, splits).value;
      GroupAdds(t, m, v, splits, ok);
      GroupsAdd(t, next, base, ranks[1..], splits, ok);
      AddsTwice(m, next, AllBankGroups(t, m, base, ranks, splits).value, ok);
    }
  }

  lemma {:induction false} SingleBanksAdd(t: Target, m: Machine, base: seq<int>, ranks: seq<int>, ok: Concrete -> bool)
    requires ValidTarget(t) && Sized(t, m) && |base| == t.config.size && SingleBankRanks(t, m, base, ranks).Ok?
    requires AllowsRanks(t, base, ok)
    ensures Adds(m, SingleBankRanks(t, m, base, ranks).value, ok)
    ensures AllIn(m, SB) ==> AllIn(SingleBankRanks(t, m, base, ranks).value, SB)
    decreases |ranks|
  {
    if |ranks| > 0 {
      var v := RankAddress(t, base, ranks[0]);
      var next := ToSingleBank(t, m, v).value;
      SingleBankAdds(t, m, v, ok);
      SingleBanksAdd(t, next, base, ranks[1..], ok);
      AddsTwice(m, next, SingleBankRanks(t, m, base, ranks).value, ok);
    }
  }

  lemma {:induction false} SerialAdds(t: Target, m: Machine, turns: seq<Turn>, ok: Concrete -> bool)
    requires ValidTarget(t) && Sized(t, m) && forall i :: 0 <= i < |turns| ==> ProperTurn(turns[i], t.config.size)
    requires SerialBanks(t, m, turns).Ok?
    requires forall i :: 0 <= i < |turns| && turns[i].address.Ok? ==> Allows(t.config, turns[i].address.value, ok)
    ensures Adds(m, SerialBanks(t, m, turns).value, ok)
    ensures AllIn(m, SB) ==> AllIn(SerialBanks(t, m, turns).value, SB)
    decreases |turns|
  {
    if |turns| > 0 {
      if turns[0].share == 0 {
        SerialAdds(t, m, turns[1..], ok);
      } else {
        var v := turns[0].address.value;
        var single := ToSingleBank(t, m, v).value;
        var work := AppendSplits(single, OpMac, v, Splits(turns[0].share, MAX_REPEAT));
        SingleBankAdds(t, m, v, ok);
        SplitsAdd(t.config, single, OpMac, v, Splits(turns[0].share, MAX_REPEAT), ok);
        AddsTwice(m, single, work, ok);
        SerialAdds(t, work, turns[1..], ok);
        AddsTwice(m, work, SerialBanks(t, m, turns).value, ok);
      }
    }
  }

  lemma {:induction false} LoadsAdd(t: Target, m: Machine, base: seq<int>, rank: int, splits: seq<int>, ok: Concrete -> bool)
    requires ValidTarget(t) && Sized(t, m) && |base| == t.config.size && 0 <= rank && LoadRanks(t, m, base, rank, splits).Ok?
    requires AllowsRanks(t, base, ok)
    ensures Adds(m, LoadRanks(t, m, base, rank, splits).value, ok)
    decreases t.rankCount - rank
  {
    if rank < t.rankCount {
      var v := RankAddress(t, base, rank);
      var hab := ToHostAllBank(t, m, v).value;
      var loaded := AppendSplits(hab, OpBcast, v, splits);
      var next := loaded.(ready := loaded.ready[rank := true]);
      HostAllBankAdds(t, m, v, ok);
      SplitsAdd(t.config, hab, OpBcast, v, splits, ok);
      AddsTwice(m, hab, loaded, ok);
      LoadsAdd(t, next, base, rank + 1, splits, ok);
      AddsTwice(m, next, LoadRanks(t, m, base, rank, splits).value, ok);
    }
  }

  lemma {:induction false} ComputeRequestsAdd(t: Target, m: Machine, addresses: seq<Result<seq<int>>>, ok: Concrete -> bool)
    requires ValidTarget(t) && Sized(t, m)
    requires forall i :: 0 <= i < |addresses| && addresses[i].Ok? ==>
      |addresses[i].value| == t.config.size && AllowsRanks(t, addresses[i].value, ok)
    requires forall i :: 0 <= i < |addresses| && addresses[i].Err? ==> addresses[i].error != BroadcastMissing
    requires ComputeRequests(t, m, addresses).Ok?
    ensures Adds(m, ComputeRequests(t, m, addresses).value, ok)
    ensures AllIn(m, SB) ==> AllIn(ComputeRequests(t, m, addresses).value, SB)
    decreases |addresses|
  {
    if |addresses| > 0 {
      var next := AllBankGroups(t, m, addresses[0].value, AllRanks(t), [1]).value;
      GroupsAdd(t, m, addresses[0].value, AllRanks(t), [1], ok);
      ComputeRequestsAdd(t, next, addresses[1..], ok);
      AddsTwice(m, next, ComputeRequests(t, m, addresses).value, ok);
    }
  }

  // ---- records ----

  /** The record is lowered to host accesses. */
  predicate WritesHost(c: Config, s: Semantic) {
    !s.accountingOnly && (HostKind(s.kind) || (s.kind == PIMDataMove && s.movement.isWeight && c.materializeWeights))
  }

  /** The record broadcasts operands and leaves the ranks in HAB. */
  predicate LoadsBroadcast(c: Config, s: Semantic) {
    !s.accountingOnly && AllBankLoadKind(s.kind) && !(s.kind == PIMDataMove && (s.movement.isWeight || s.movement.kind != BroadcastLoad))
  }

  ghost predicate AllowsRecord(t: Target, s: Semantic, ok: Concrete -> bool)
    requires ValidTarget(t)
  {
    forall i :: PimAddress(t.config, s, i).Ok? ==> AllowsRanks(t, PimAddress(t.config, s, i).value, ok)
  }

  lemma PerBankAdds(t: Target, m: Machine, s: Semantic, base: seq<int>, ranks: seq<int>, ok: Concrete -> bool)
    requires ValidTarget(t) && Sized(t, m) && |base| == t.config.size && |s.bankSequence| > 0
    requires LowerPerBank(t, m, s, base, ranks).Ok? && AllowsRanks(t, base, ok) && AllowsRecord(t, s, ok)
    ensures Adds(m, LowerPerBank(t, m, s, base, ranks).value, ok)
    ensures AllIn(m, SB) ==> AllIn(LowerPerBank(t, m, s, base, ranks).value, SB)
  {
    var c := t.config;
    var single := SingleBankRanks(t, m, base, ranks).value;
    var begun := if |single.records| == 0 then Append(single, OpSB, base, 1, None, None) else single;
    SingleBanksAdd(t, m, base, ranks, ok);
    AppendAdds(c, single, OpSB, base, 1, None, ok);
    AddsTwice(m, single, begun, ok);
    if c.interleaveBanks && |s.bankSequence| > 1 {
      CompactAdds(c, begun, base, Splits(RequestCount(s), c.maxRepeatPerRecord), CompactFields(c, s), ok);
    } else {
      TurnsAllowed(t, s, ok);
      SerialAdds(t, begun, SerialTurns(c, s), ok);
    }
    AddsTwice(m, begun, LowerPerBank(t, m, s, base, ranks).value, ok);
  }

  lemma TurnsAllowed(t: Target, s: Semantic, ok: Concrete -> bool)
    requires ValidTarget(t) && |s.bankSequence| > 0 && AllowsRecord(t, s, ok)
    ensures var turns := SerialTurns(t.config, s);
      forall i :: 0 <= i < |turns| && turns[i].address.Ok? ==> Allows(t.config, turns[i].address.value, ok)
  {
    var turns := SerialTurns(t.config, s);
    forall i | 0 <= i < |turns| && turns[i].address.Ok?
      ensures Allows(t.config, turns[i].address.value, ok)
    {
      assert turns[i].address == PimAddress(t.config, s, i);
    }
  }

  lemma ComputeAdds(t: Target, m: Machine, s: Semantic, base: seq<int>, ok: Concrete -> bool)
    requires ValidTarget(t) && Sized(t, m) && |base| == t.config.size && |s.bankSequence| > 0 && BanksFit(t.config)
    requires LowerCompute(t, m, s, base).Ok? && AllowsRanks(t, base, ok) && AllowsRecord(t, s, ok)
    ensures Adds(m, LowerCompute(t, m, s, base).value, ok)
    ensures AllIn(m, SB) ==> AllIn(LowerCompute(t, m, s, base).value, SB)
  {
    var ranks := TargetRanks(t, base, s.bankSequence).value;
    if TakesAllBankPath(t.config, s) {
      GroupsAdd(t, m, base, ranks, Splits(AllBankIssues(s), t.config.maxRepeatPerRecord), ok);
    } else {
      PerBankAdds(t, m, s, base, ranks, ok);
    }
  }

  lemma RequestsAllowed(t: Target, s: Semantic, ok: Concrete -> bool)
    requires ValidTarget(t) && s.numRequests > 0 && AllowsRecord(t, s, ok)
    ensures var addresses := RequestAddresses(t.config, s);
      forall i :: 0 <= i < |addresses| && addresses[i].Ok? ==>
        |addresses[i].value| == t.config.size && AllowsRanks(t, addresses[i].value, ok)
  {
  }

  /** A record that writes no host data appends records at its own addresses, and unless
      it loads a broadcast every rank that was in SB is in SB again after it. */
  lemma RecordAdds(t: Target, m: Machine, s: Semantic, ok: Concrete -> bool)
    requires ValidTarget(t) && Sized(t, m) && !WritesHost(t.config, s)
    requires LowerRecord(t, m, s).Ok? && AllowsRecord(t, s, ok)
    ensures Adds(m, LowerRecord(t, m, s).value, ok)
    ensures AllIn(m, SB) && !LoadsBroadcast(t.config, s) ==> AllIn(LowerRecord(t, m, s).value, SB)
  {
    if LowerRecord(t, m, s).value != m {
      var base := PimAddress(t.config, s, 0).value;
      if PerBankKind(s.kind) {
        ComputeAdds(t, m, s, base, ok);
      } else if AllBankLoadKind(s.kind) {
        LoadsAdd(t, m, base, 0, Splits(RequestCount(s), MAX_REPEAT), ok);
      } else {
        RequestsAllowed(t, s, ok);
        ComputeRequestsAdd(t, m, RequestAddresses(t.config, s), ok);
      }
    }
  }
}
