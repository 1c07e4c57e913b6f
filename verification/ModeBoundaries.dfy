/** Two readings of a trace that are stricter than the mode contract, with the exact
    configurations under which lowering meets them for every record list:
    the rank in a compact record's own `addr_vec`, and the ranks a repeated, strided
    host record crosses while it is replayed. */
module ModeBoundaries {
  import opened Addressing
  import opened BankOrders
  import opened Division
  import opened Emission
  import opened FlatBank
  import opened HostStream
  import opened Lowering
  import opened MixedRadix
  import opened ModeSafety
  import opened Results
  import opened Trace

  // ----- a record that puts every rank into HAB

  const NO_MOVE := Movement(false, BroadcastLoad, 0, 64, true, 0, 0, 0, None, "")
  const NO_ADDRESS := AddressPolicy(None, None, None)
  const LOAD_ALL := Semantic(PIMLoadAll, false, NO_ADDRESS, 1, 1, [], 1, 1, 0, 1, 0, 0, 0, false, NO_MOVE)

  lemma {:induction false} LoadRanksAllHab(t: Target, m: Machine, base: seq<int>, rank: int, splits: seq<int>)
    requires ValidTarget(t) && Sized(t, m) && |base| == t.config.size && 0 <= rank <= t.rankCount
    requires forall r :: 0 <= r < rank ==> m.modes[r] == HAB
    ensures LoadRanks(t, m, base, rank, splits).Ok?
    ensures AllIn(LoadRanks(t, m, base, rank, splits).value, HAB)
    ensures |LoadRanks(t, m, base, rank, splits).value.records| >= |m.records|
    decreases t.rankCount - rank
  {
    if rank < t.rankCount {
      var v := RankAddress(t, base, rank);
      var hab := ToHostAllBank(t, m, v).value;
      SplitsGrow(hab, OpBcast, v, splits);
      var loaded := AppendSplits(hab, OpBcast, v, splits);
      LoadRanksAllHab(t, loaded.(ready := loaded.ready[rank := true]), base, rank + 1, splits);
    }
  }

  lemma {:induction false} SplitsGrow(m: Machine, opcode: Opcode, v: seq<int>, splits: seq<int>)
    ensures |AppendSplits(m, opcode, v, splits).records| == |m.records| + |splits|
    decreases |splits|
  {
    if |splits| > 0 {
      SplitsGrow(Append(m, opcode, v, splits[0], None, None), opcode, v, splits[1..]);
    }
  }

  /** After LOAD_ALL every rank is in HAB and the trace is not empty. */
  lemma LoadAllState(t: Target, own: bool)
    requires ValidTarget(t) && t.config.size > 0 && LevelsFit(t.config) && BanksFit(t.config)
    ensures LowerRecord(t, Start(t), LOAD_ALL).Ok?
    ensures var m := LowerRecord(t, Start(t), LOAD_ALL).value;
            Inv(t, own, m) && AllIn(m, HAB) && |m.records| > 0
  {
    var base := PimAddress(t.config, LOAD_ALL, 0).value;
    StartAgrees(t, own);
    assert Splits(1, MAX_REPEAT) == [1] + Splits(0, MAX_REPEAT) == [1];
    assert RequestCount(LOAD_ALL) == 1;
    LoadRanksAllHab(t, Start(t), base, 0, [1]);
    LoadRanksKeep(t, own, Start(t), base, 0, [1]);
    var m := LoadRanks(t, Start(t), base, 0, [1]).value;
    if |m.records| == 0 {
      var state := Get(map[], 0);
      assert false;
    }
  }

  lemma LowerTwo(config: Config, a: Semantic, b: Semantic)
    requires config.maxRepeatPerRecord > 0 && Resolve(config).Ok?
    requires var t := Resolve(config).value;
             && ValidTarget(t) && LowerRecord(t, Start(t), a).Ok?
             && LowerRecord(t, LowerRecord(t, Start(t), a).value, b).Ok?
    ensures var t := Resolve(config).value;
            Lower(config, [a, b]) == Ok(LowerRecord(t, LowerRecord(t, Start(t), a).value, b).value.records)
  {
    var t := Resolve(config).value;
    var m := LowerRecord(t, Start(t), a).value;
    var n := LowerRecord(t, m, b).value;
    assert [a, b][1..] == [b] && [b][1..] == [];
    assert LowerFrom(t, n, []) == Ok(n);
    assert LowerFrom(t, m, [b]) == Ok(n);
    assert LowerFrom(t, Start(t), [a, b]) == Ok(n);
  }

  // ----- the rank in a compact record's addr_vec

  function ComputeOn(flat: int): Semantic {
    Semantic(PIMCompute, false, NO_ADDRESS, 1, 1, [flat, flat], 1, 1, 0, 1, 0, 0, 0, true, NO_MOVE)
  }

  predicate Disagrees(t: Target, flat: int) {
    var c := t.config;
    && BanksFit(c) && c.positions.Some? && c.size > 0 && LevelsFit(c) && c.interleaveBanks && c.macMode != AllBank
    && t.rankLevel.Some? && t.rankLevel.value < c.size
    && 0 <= flat < Product(c.counts.value) && RanksDiffer(t, flat)
  }

  /** The compute record's base vector lies in one rank, its only target is another. */
  lemma DisagreeingTarget(t: Target, flat: int) returns (base: seq<int>, target: int)
    requires ValidTarget(t) && Disagrees(t, flat)
    ensures PimAddress(t.config, ComputeOn(flat), 0) == Ok(base)
    ensures RankId(t, base).Ok? && 0 <= target < t.rankCount && base[t.rankLevel.value] != target
    ensures TargetRanks(t, base, [flat, flat]) == Ok([target])
    ensures t.rankLevel.value in t.config.positions.value
  {
    var c, s, rank := t.config, ComputeOn(flat), t.rankLevel.value;
    FirstBank(s);
    base := PimAddress(c, s, 0).value;
    OwnRankOfBase(t, s, base);
    TargetIsDigit(t, flat, base[rank]);
    target := RankDigit(flat, c.positions.value, c.counts.value, rank, base[rank]);
    assert [flat, flat][..1] == [flat] && [flat][..0] == [];
    assert TargetRank(t, base, flat) == Ok(target);
    assert TargetRanks(t, base, []) == Ok([]);
    assert [target] + [] == [target] && InsertRank(target, []) == [target];
    assert TargetRanks(t, base, [flat]) == Ok([target]);
    assert InsertRank(target, [target]) == [target];
  }

  lemma CompactOnce(t: Target, m: Machine, flat: int, base: seq<int>, target: int)
    requires ValidTarget(t) && Sized(t, m) && Disagrees(t, flat) && |m.records| > 0
    requires PimAddress(t.config, ComputeOn(flat), 0) == Ok(base)
    requires TargetRanks(t, base, [flat, flat]) == Ok([target]) && 0 <= target < t.rankCount
    ensures ToSingleBank(t, m, RankAddress(t, base, target)).Ok?
    ensures var single := ToSingleBank(t, m, RankAddress(t, base, target)).value;
            var rec := Concrete(|single.records|, OpMac, 1, base, None, Some(CompactFields(t.config, ComputeOn(flat))));
            && LowerRecord(t, m, ComputeOn(flat)).Ok?
            && LowerRecord(t, m, ComputeOn(flat)).value.records == single.records + [rec]
  {
    var c, s := t.config, ComputeOn(flat);
    var single := ToSingleBank(t, m, RankAddress(t, base, target)).value;
    assert [target][1..] == [] && SingleBankRanks(t, single, base, []) == Ok(single);
    assert SingleBankRanks(t, m, base, [target]) == Ok(single);
    assert RequestCount(s) == 1;
    assert Splits(0, c.maxRepeatPerRecord) == [] && Splits(1, c.maxRepeatPerRecord) == [1];
    assert [1][1..] == [];
    var done := AppendCompact(single, base, [1], CompactFields(c, s));
    assert !TakesAllBankPath(c, s);
    assert LowerPerBank(t, m, s, base, [target]) == Ok(done);
  }

  /** A flat bank on which the two orders disagree makes LOAD_ALL followed by one
      two-bank compute emit a PIM_MAC whose own rank is still in HAB. */
  lemma DisagreementBreaksOwnRank(config: Config, flat: int)
    requires config.maxRepeatPerRecord > 0 && Resolve(config).Ok? && config.layout.Some?
    requires Disagrees(Resolve(config).value, flat)
    ensures Lower(config, [LOAD_ALL, ComputeOn(flat)]).Ok?
    ensures Replay(true, View(Resolve(config).value.rankLevel, true),
                   Lower(config, [LOAD_ALL, ComputeOn(flat)]).value).None?
  {
    var t := Resolve(config).value;
    ResolvedTargetIsValid(config);
    LoadAllState(t, true);
    var m := LowerRecord(t, Start(t), LOAD_ALL).value;
    var base, target := DisagreeingTarget(t, flat);
    CompactOnce(t, m, flat, base, target);
    var v := RankAddress(t, base, target);
    ToSingleBankKeeps(t, true, m, v);
    RankOfRankAddress(t, base, target);
    var single := ToSingleBank(t, m, v).value;
    var own := base[t.rankLevel.value];
    assert single.modes[own] == HAB;
    LowerTwo(config, LOAD_ALL, ComputeOn(flat));
    IllegalLast(t, single, Concrete(|single.records|, OpMac, 1, base, None, Some(CompactFields(t.config, ComputeOn(flat)))), own);
  }

  lemma TargetIsDigit(t: Target, flat: int, own: int)
    requires ValidTarget(t) && BanksFit(t.config) && t.config.positions.Some? && t.rankLevel.Some? && t.config.size > 0
    requires own == ControllerRank(flat, t.config.size, t.config.positions.value, t.config.counts.value, t.rankLevel.value)
    ensures RankDigit(flat, t.config.positions.value, t.config.counts.value, t.rankLevel.value, own)
         == RankDigit(flat, t.config.positions.value, t.config.counts.value, t.rankLevel.value, 0)
  {
    var positions := t.config.positions.value;
    BankOrderDistinct(positions, true);
    FallbackIsOwn(flat, seq(t.config.size, _ => 0), positions, t.config.counts.value, t.rankLevel.value,
                  BankOrder(positions, true));
  }

  lemma IllegalLast(t: Target, m: Machine, rec: Concrete, own: int)
    requires Inv(t, true, m) && rec.opcode == OpMac && 0 <= own < t.rankCount && m.modes[own] == HAB
    requires own in RanksOf(rec, View(t.rankLevel, true))
    ensures Replay(true, View(t.rankLevel, true), m.records + [rec]).None?
  {
    assert (m.records + [rec])[..|m.records|] == m.records;
    var ranks := Replay(true, View(t.rankLevel, true), m.records).value;
    assert Get(ranks, own) == Tracked(m, own);
  }

  lemma SomeBankDisagrees(t: Target) returns (flat: int)
    requires ValidTarget(t) && t.config.layout.Some? && t.config.positions.Some? && LevelsFit(t.config)
    requires !OwnRankSafe(t) && BanksFit(t.config)
    ensures Disagrees(t, flat)
  {
    var f :| 0 <= f < Product(t.config.counts.value) && RanksDiffer(t, f);
    flat := f;
  }

  ghost predicate OwnRankAlwaysInSB(config: Config)
    requires config.maxRepeatPerRecord > 0 && Resolve(config).Ok?
  {
    forall semantics | Lower(config, semantics).Ok? ::
      Replay(true, View(Resolve(config).value.rankLevel, true), Lower(config, semantics).value).Some?
  }

  /** The orders agree on ranks exactly when a step of Rank spans as many banks in the
      interleave order as in the hierarchy. */
  lemma OrdersAgreeExactly(t: Target)
    requires ValidTarget(t) && t.config.layout.Some? && CompactChecked(t) && t.config.size > 0 && BanksFit(t.config)
    ensures OrdersAgree(t) <==> RankWeightsAgree(t.config.positions.value, t.config.counts.value, t.rankLevel.value)
  {
    var c, rank := t.config, t.rankLevel.value;
    var positions, counts := c.positions.value, c.counts.value;
    RanksAlikeExactly(c.size, positions, counts, rank);
    forall flat | 0 <= flat < Product(counts)
      ensures RanksDiffer(t, flat)
         <==> Placed(flat, c.size, positions, counts, true)[rank] != Placed(flat, c.size, positions, counts, false)[rank]
    {
      RanksOfBank(t, flat);
    }
  }

  /** The rank digits of a bank in both orders exist. */
  lemma RankDigitsExist(t: Target, flat: int, k: nat)
    requires ValidTarget(t) && t.config.layout.Some? && CompactChecked(t) && t.config.size > 0 && BanksFit(t.config)
    requires 0 <= flat < Product(t.config.counts.value)
    requires k < |t.config.positions.value| && t.config.positions.value[k] == t.rankLevel.value
    ensures var c := t.config; forall o :: 0 <= Placed(flat, c.size, c.positions.value, c.counts.value, o)[t.rankLevel.value] < t.rankCount
  {
    var c := t.config;
    RankDigits(flat, c.size, c.positions.value, c.counts.value, k);
    assert c.counts.value[k] == t.rankCount;
  }

  /** Both ranks of a bank exist. */
  lemma RanksOfBank(t: Target, flat: int)
    requires ValidTarget(t) && t.config.layout.Some? && CompactChecked(t) && t.config.size > 0 && BanksFit(t.config)
    requires 0 <= flat < Product(t.config.counts.value)
    ensures HasBankRanks(t)
    ensures var c, rank := t.config, t.rankLevel.value;
      RanksDiffer(t, flat) <==> Placed(flat, c.size, c.positions.value, c.counts.value, true)[rank]
                                != Placed(flat, c.size, c.positions.value, c.counts.value, false)[rank]
  {
    var c, rank := t.config, t.rankLevel.value;
    var positions, counts, zeros := c.positions.value, c.counts.value, Zeros(c.size);
    assert zeros == seq(c.size, _ => 0);
    RankAgreesInInterleaveOrder(flat, zeros, positions, counts, rank);
    if rank in positions {
      var k :| 0 <= k < |positions| && positions[k] == rank;
      RankDigitsExist(t, flat, k);
    } else {
      PlacedOffBanks(flat, zeros, positions, counts, true, rank);
      PlacedOffBanks(flat, zeros, positions, counts, false, rank);
    }
  }

  /** READ, WRITE and PIM_MAC always find the rank of their own `addr_vec` in SB, for
      every record list, exactly when compact records are never used for MACs, or the
      bank map is one no PIM record is accepted with, or a step of Rank spans as many
      banks in the interleave order as in the hierarchy. */
  lemma OwnRankSafeExactly(config: Config)
    requires config.maxRepeatPerRecord > 0 && Resolve(config).Ok? && config.layout.Some?
    requires Resolve(config).value.config.layout.Some? && CompactChecked(Resolve(config).value)
    ensures var t := Resolve(config).value;
      ValidTarget(t) && (OwnRankAlwaysInSB(config)
        <==> || !t.config.interleaveBanks || t.config.macMode == AllBank || !BanksFit(t.config)
             || RankWeightsAgree(t.config.positions.value, t.config.counts.value, t.rankLevel.value))
  {
    var t := Resolve(config).value;
    ResolvedTargetIsValid(config);
    if BanksFit(t.config) {
      OrdersAgreeExactly(t);
    }
    if OwnRankSafe(t) || !BanksFit(t.config) {
      OwnRankStaysInSB(config);
    } else {
      OwnRankLeavesSB(config);
    }
  }

  lemma OwnRankLeavesSB(config: Config)
    requires config.maxRepeatPerRecord > 0 && Resolve(config).Ok? && config.layout.Some?
    requires ValidTarget(Resolve(config).value)
    requires !OwnRankSafe(Resolve(config).value) && BanksFit(Resolve(config).value.config)
    ensures !OwnRankAlwaysInSB(config)
  {
    var flat := SomeBankDisagrees(Resolve(config).value);
    DisagreementBreaksOwnRank(config, flat);
    OneTraceLeavesSB(config, [LOAD_ALL, ComputeOn(flat)]);
  }

  lemma OneTraceLeavesSB(config: Config, semantics: seq<Semantic>)
    requires config.maxRepeatPerRecord > 0 && Resolve(config).Ok? && Lower(config, semantics).Ok?
    requires Replay(true, View(Resolve(config).value.rankLevel, true), Lower(config, semantics).value).None?
    ensures !OwnRankAlwaysInSB(config)
  {
  }

  lemma OwnRankStaysInSB(config: Config)
    requires config.maxRepeatPerRecord > 0 && Resolve(config).Ok? && ValidTarget(Resolve(config).value)
    requires OwnRankSafe(Resolve(config).value) || !BanksFit(Resolve(config).value.config)
    ensures OwnRankAlwaysInSB(config)
  {
    var t := Resolve(config).value;
    forall semantics | Lower(config, semantics).Ok?
      ensures Replay(true, View(t.rankLevel, true), Lower(config, semantics).value).Some?
    {
      StartAgrees(t, true);
      LowerFromKeeps(t, true, Start(t), semantics);
    }
  }

  /** A layout with Rank first is on the safe side. */
  lemma RankFirstOrdersAgree(t: Target)
    requires t.config.positions.Some? && t.rankLevel.Some? && RankLeads(t.config.positions.value, t.rankLevel.value)
    ensures OrdersAgree(t)
  {
    var c := t.config;
    if c.counts.Some? && t.rankLevel.value < c.size && BankMap(c.positions.value, c.counts.value, c.size) {
      var positions, counts, rank := c.positions.value, c.counts.value, t.rankLevel.value;
      forall flat | 0 <= flat < Product(counts)
        ensures ControllerRank(flat, c.size, positions, counts, rank) == RankDigit(flat, positions, counts, rank, 0)
      {
        RankAgreesInEitherOrder(flat, seq(c.size, _ => 0), positions, counts, rank, true);
      }
    }
  }

  // ----- the ranks a strided host record crosses

  /** A layout whose capacity is what its levels hold, as `extract_dram_layout` builds it. */
  predicate ProperLayout(l: Layout) {
    && WellFormedLayout(l.levelNames, l.levelSizes, l.prefetch, l.txBytes)
    && l.capacityBytes == Product(Radices(l.levelSizes, l.prefetch)) * l.txBytes
  }

  lemma ProperLayoutIsUsable(l: Layout)
    requires ProperLayout(l)
    ensures UsableLayout(l) && Transactions(l) == Product(Radices(l.levelSizes, l.prefetch)) >= 1
  {
    RadicesPositive(l.levelSizes, l.prefetch);
    MulPositive(Product(Radices(l.levelSizes, l.prefetch)), l.txBytes);
    QuotUnique(l.capacityBytes, l.txBytes, Product(Radices(l.levelSizes, l.prefetch)), 0);
  }

  /** Every issue of every host record lies in a rank that is in SB when it is replayed. */
  ghost predicate HostIssuesInSB(t: Target, records: seq<Concrete>)
    requires ValidTarget(t) && t.rankLevel.Some?
  {
    forall n :: 0 <= n < |records| && (records[n].opcode == OpRead || records[n].opcode == OpWrite) && records[n].host.Some? ==>
      IssuesInSB(t, Replay(true, View(t.rankLevel, false), records[..n]), records[n])
  }

  ghost predicate IssuesInSB(t: Target, state: Option<Ranks>, rec: Concrete)
    requires ValidTarget(t) && t.rankLevel.Some? && rec.host.Some?
  {
    forall i :: 0 <= i < rec.repeat && HostVector(t, HostAddress(rec, i)).Ok? ==>
      state.Some? && Get(state.value, HostVector(t, HostAddress(rec, i)).value[t.rankLevel.value]).mode == SB
  }

  ghost predicate HostAlwaysInSB(config: Config)
    requires config.maxRepeatPerRecord > 0 && Resolve(config).Ok? && config.layout.Some?
    requires ValidTarget(Resolve(config).value)
  {
    forall semantics | Lower(config, semantics).Ok? ::
      HostIssuesInSB(Resolve(config).value, Lower(config, semantics).value)
  }

  lemma RankRadix(t: Target)
    requires ValidTarget(t) && t.rankLevel.Some? && ProperLayout(t.config.layout.value)
    requires t.config.layout.value.levelNames[t.rankLevel.value] == "Rank"
    ensures var l := t.config.layout.value;
            && |Radices(l.levelSizes, l.prefetch)| == t.config.size
            && Radices(l.levelSizes, l.prefetch)[t.rankLevel.value] == t.rankCount
  {
  }

  /** With one rank every address lies in rank 0. */
  lemma OnlyRankZero(t: Target, address: int)
    requires ValidTarget(t) && t.rankLevel.Some? && ProperLayout(t.config.layout.value) && t.rankCount == 1
    requires t.config.layout.value.levelNames[t.rankLevel.value] == "Rank" && HostVector(t, address).Ok?
    ensures HostVector(t, address).value[t.rankLevel.value] == 0
  {
    var l := t.config.layout.value;
    RankRadix(t);
    MapIdentifiesTransaction(address, address, l.levelNames, l.levelSizes, l.prefetch, l.txBytes);
  }

  /** A host record is replayed while its own rank is in SB. */
  lemma HostRankInSB(t: Target, records: seq<Concrete>, n: nat)
    requires ValidTarget(t) && t.rankLevel.Some? && t.rankCount == 1 && n < |records|
    requires Replay(true, View(t.rankLevel, false), records).Some? && RanksExist(t, false, records)
    requires |records[n].addrVec| == t.config.size
    requires (records[n].opcode == OpRead || records[n].opcode == OpWrite) && records[n].host.Some?
    ensures var state := Replay(true, View(t.rankLevel, false), records[..n]);
      state.Some? && Get(state.value, 0).mode == SB
  {
    var view := View(t.rankLevel, false);
    ReplayPrefix(true, view, records, n + 1);
    assert records[..n + 1][..n] == records[..n];
    var touched := RanksOf(records[n], view);
    assert Exists(t, touched) && records[n].addrVec[t.rankLevel.value] in touched;
  }

  lemma OneRankNeverCrosses(t: Target, records: seq<Concrete>)
    requires ValidTarget(t) && t.rankLevel.Some? && ProperLayout(t.config.layout.value) && t.rankCount == 1
    requires t.config.layout.value.levelNames[t.rankLevel.value] == "Rank"
    requires Replay(true, View(t.rankLevel, false), records).Some? && RanksExist(t, false, records)
    requires forall n :: 0 <= n < |records| ==> |records[n].addrVec| == t.config.size
    ensures HostIssuesInSB(t, records)
  {
    forall n | 0 <= n < |records| && (records[n].opcode == OpRead || records[n].opcode == OpWrite) && records[n].host.Some?
      ensures IssuesInSB(t, Replay(true, View(t.rankLevel, false), records[..n]), records[n])
    {
      HostRankInSB(t, records, n);
      forall i | 0 <= i < records[n].repeat && HostVector(t, HostAddress(records[n], i)).Ok?
        ensures HostVector(t, HostAddress(records[n], i)).value[t.rankLevel.value] == 0
      {
        OnlyRankZero(t, HostAddress(records[n], i));
      }
    }
  }

  lemma OneHotInRange(n: nat, k: nat, radices: seq<int>)
    requires |radices| == n && k < n && Positive(radices) && radices[k] >= 2
    ensures InRange(seq(n, _ => 0), radices) && InRange(seq(n, _ => 0)[k := 1], radices)
    ensures Value(seq(n, _ => 0), radices) == 0
    ensures 1 <= Value(seq(n, _ => 0)[k := 1], radices) < Product(radices)
  {
    var zeros := seq(n, _ => 0);
    var digits := zeros[k := 1];
    ValueOfZeros(n, radices);
    ValueBelowProduct(digits, radices);
    DifferentDigits(zeros, digits, radices, k);
  }

  lemma DifferentDigits(a: seq<int>, b: seq<int>, radices: seq<int>, k: nat)
    requires |a| == |b| == |radices| && Positive(radices) && InRange(a, radices) && InRange(b, radices)
    requires k < |a| && a[k] != b[k]
    ensures Value(a, radices) != Value(b, radices)
  {
    DigitsOfValue(a, radices);
    DigitsOfValue(b, radices);
  }

  /** The transaction numbered by a coordinate vector maps back to it. */
  lemma VectorOfValue(t: Target, digits: seq<int>)
    requires ValidTarget(t) && t.config.layout.Some? && ProperLayout(t.config.layout.value) && |digits| == t.config.size
    requires var l := t.config.layout.value; InRange(digits, Radices(l.levelSizes, l.prefetch))
    ensures var l := t.config.layout.value;
      HostVector(t, Value(digits, Radices(l.levelSizes, l.prefetch)) * l.txBytes) == Ok(digits)
  {
    var l := t.config.layout.value;
    var address := Value(digits, Radices(l.levelSizes, l.prefetch)) * l.txBytes;
    MapIsOnto(digits, 0, l.levelNames, l.levelSizes, l.prefetch, l.txBytes);
    HostVectorIsMap(t, address);
    assert address + 0 == address;
  }

  lemma HostVectorIsMap(t: Target, address: int)
    requires ValidTarget(t) && t.config.layout.Some?
    ensures var l := t.config.layout.value;
      HostVector(t, address) == MapAddress(address, l.levelNames, l.levelSizes, l.prefetch, l.txBytes)
  {
  }

  /** Coordinates of the first transaction of rank 1, and the distance to it. */
  lemma FirstOfRankOne(t: Target) returns (distance: int)
    requires ValidTarget(t) && t.rankLevel.Some? && ProperLayout(t.config.layout.value) && t.rankCount >= 2
    requires t.config.layout.value.levelNames[t.rankLevel.value] == "Rank"
    ensures var l := t.config.layout.value;
            && 1 <= distance < Product(Radices(l.levelSizes, l.prefetch))
            && HostVector(t, 0).Ok? && HostVector(t, 0).value[t.rankLevel.value] == 0
            && HostVector(t, distance * l.txBytes).Ok?
            && HostVector(t, distance * l.txBytes).value[t.rankLevel.value] == 1
  {
    var l := t.config.layout.value;
    var radices := Radices(l.levelSizes, l.prefetch);
    RankRadix(t);
    RadicesPositive(l.levelSizes, l.prefetch);
    OneHotInRange(t.config.size, t.rankLevel.value, radices);
    var zeros := seq(t.config.size, _ => 0);
    distance := Value(zeros[t.rankLevel.value := 1], radices);
    VectorOfValue(t, zeros[t.rankLevel.value := 1]);
    VectorOfValue(t, zeros);
  }

  lemma {:induction false} ValueOfZeros(n: nat, radices: seq<int>)
    requires |radices| == n
    ensures Value(seq(n, _ => 0), radices) == 0
  {
    if n > 0 {
      assert seq(n, _ => 0)[..n - 1] == seq(n - 1, _ => 0);
      ValueOfZeros(n - 1, radices[..n - 1]);
    }
  }

  function ReadPair(stride: int): Semantic {
    Semantic(HostRead, false, AddressPolicy(Some(0), Some(stride), Some(2)), 1, 0, [], 1, 1, 0, 1, 0, 0, 0, false, NO_MOVE)
  }

  /** A stream of two addresses `distance` transactions apart becomes one chunk. */
  lemma PairIsOneChunk(l: Layout, policy: Policy, distance: int) returns (stride: int)
    requires ProperLayout(l) && policy != UnknownPolicy
    requires 1 <= distance < Product(Radices(l.levelSizes, l.prefetch))
    ensures stride > 0
    ensures HostChunks(0, stride, 2, MAX_REPEAT, Some(l), policy) == Ok([Chunk(0, distance * l.txBytes, 2)])
  {
    ProperLayoutIsUsable(l);
    if policy == StrictBytes {
      stride := distance * l.txBytes;
      MulPositive(distance, l.txBytes);
      assert StrictChunks(0, stride, 2, 0, MAX_REPEAT) == [];
      assert StrictChunks(0, stride, 0, 2, MAX_REPEAT) == [Chunk(0, stride, 2)];
    } else {
      stride := distance * l.prefetch;
      MulPositive(distance, l.prefetch);
      QuotUnique(stride, l.prefetch, distance, 0);
      QuotSmall(0, l.prefetch);
      QuotSmall(0, Transactions(l));
      QuotSmall(distance, Transactions(l));
      assert BoundedStep(stride, l) == distance;
      var room := Quot(Transactions(l) - 1, distance);
      QuotRem(Transactions(l) - 1, distance);
      if room <= 0 {
        MulMonotone(room, 0, distance);
        assert false;
      }
      assert BoundedChunk(0, stride, 0, 2, MAX_REPEAT, l) == Chunk(0, distance * l.txBytes, 2);
      assert BoundedChunks(0, stride, 2, 0, MAX_REPEAT, l) == [];
      assert BoundedChunks(0, stride, 0, 2, MAX_REPEAT, l) == [Chunk(0, distance * l.txBytes, 2)];
    }
  }

  lemma ReadPairRecord(t: Target, m: Machine, stride: int, gap: int)
    requires ValidTarget(t) && Sized(t, m) && stride > 0 && gap > 0 && HostVector(t, 0).Ok? && RankId(t, HostVector(t, 0).value).Ok?
    requires HostChunks(0, stride, 2, MAX_REPEAT, t.config.layout, t.config.policy) == Ok([Chunk(0, gap, 2)])
    ensures ToSingleBank(t, m, HostVector(t, 0).value).Ok? && LowerRecord(t, m, ReadPair(stride)).Ok?
    ensures var single := ToSingleBank(t, m, HostVector(t, 0).value).value;
            LowerRecord(t, m, ReadPair(stride)).value.records
            == single.records + [Concrete(|single.records|, OpRead, 2, HostVector(t, 0).value, Some(HostBytes(0, gap)), None)]
  {
    var v := HostVector(t, 0).value;
    var single := ToSingleBank(t, m, v).value;
    var chunk := Chunk(0, gap, 2);
    var done := AppendHost(single, OpRead, v, chunk);
    assert [chunk][1..] == [] && AppendChunks(t, done, OpRead, []) == Ok(done);
    assert AppendChunks(t, m, OpRead, [chunk]) == Ok(done);
    assert HostRepeats(t, done, OpRead, 0, stride, 2, 1, 1) == Ok(done);
    assert HostRepeats(t, m, OpRead, 0, stride, 2, 0, 1) == Ok(done);
  }

  lemma LateIssueBreaks(t: Target, single: Machine, v: seq<int>, gap: int)
    requires ValidTarget(t) && t.rankLevel.Some? && Inv(t, false, single)
    requires t.rankCount >= 2 && single.modes[1] == HAB
    requires HostVector(t, gap).Ok? && HostVector(t, gap).value[t.rankLevel.value] == 1
    ensures var rec := Concrete(|single.records|, OpRead, 2, v, Some(HostBytes(0, gap)), None);
            !HostIssuesInSB(t, single.records + [rec])
  {
    var rec := Concrete(|single.records|, OpRead, 2, v, Some(HostBytes(0, gap)), None);
    var records, n := single.records + [rec], |single.records|;
    assert records[..n] == single.records && records[n] == rec;
    var state := Replay(true, View(t.rankLevel, false), single.records);
    assert Get(state.value, 1) == Tracked(single, 1);
    assert HostAddress(rec, 1) == gap;
    assert !IssuesInSB(t, state, rec);
  }

  /** A broadcast load leaves rank 1 in HAB; a strided read then crosses into it. */
  lemma PairCrosses(t: Target, m: Machine, stride: int, gap: int)
    requires ValidTarget(t) && t.rankLevel.Some? && Inv(t, false, m) && t.rankCount >= 2 && stride > 0 && gap > 0
    requires HostVector(t, 0).Ok? && HostVector(t, 0).value[t.rankLevel.value] == 0 && m.modes[1] == HAB
    requires HostVector(t, gap).Ok? && HostVector(t, gap).value[t.rankLevel.value] == 1
    requires HostChunks(0, stride, 2, MAX_REPEAT, t.config.layout, t.config.policy) == Ok([Chunk(0, gap, 2)])
    ensures LowerRecord(t, m, ReadPair(stride)).Ok?
    ensures !HostIssuesInSB(t, LowerRecord(t, m, ReadPair(stride)).value.records)
  {
    var v := HostVector(t, 0).value;
    ReadPairRecord(t, m, stride, gap);
    ToSingleBankKeeps(t, false, m, v);
    LateIssueBreaks(t, ToSingleBank(t, m, v).value, v, gap);
  }

  lemma CrossingBreaks(config: Config)
    requires config.maxRepeatPerRecord > 0 && Resolve(config).Ok? && config.layout.Some?
    requires ProperLayout(config.layout.value) && BanksFit(Resolve(config).value.config)
    requires Resolve(config).value.rankCount >= 2 && ValidTarget(Resolve(config).value)
    ensures !HostAlwaysInSB(config)
  {
    var t := Resolve(config).value;
    LoadAllState(t, false);
    var m := LowerRecord(t, Start(t), LOAD_ALL).value;
    var distance := FirstOfRankOne(t);
    var l := t.config.layout.value;
    var stride := PairIsOneChunk(l, t.config.policy, distance);
    MulPositive(distance, l.txBytes);
    PairCrosses(t, m, stride, distance * l.txBytes);
    LowerTwo(config, LOAD_ALL, ReadPair(stride));
    OneTraceCrosses(config, [LOAD_ALL, ReadPair(stride)]);
  }

  lemma OneTraceCrosses(config: Config, semantics: seq<Semantic>)
    requires config.maxRepeatPerRecord > 0 && Resolve(config).Ok? && config.layout.Some?
    requires ValidTarget(Resolve(config).value) && Lower(config, semantics).Ok?
    requires !HostIssuesInSB(Resolve(config).value, Lower(config, semantics).value)
    ensures !HostAlwaysInSB(config)
  {
  }

  /** Replaying strided host records never leaves SB ranks, for every record list,
      exactly on devices with a single rank: a chunk returns only the rank of its first
      address to SB. */
  lemma HostIssuesSafeExactly(config: Config)
    requires config.maxRepeatPerRecord > 0 && Resolve(config).Ok? && config.layout.Some?
    requires ProperLayout(config.layout.value) && BanksFit(Resolve(config).value.config)
    ensures ValidTarget(Resolve(config).value)
    ensures HostAlwaysInSB(config) <==> Resolve(config).value.rankCount == 1
  {
    var t := Resolve(config).value;
    ResolvedTargetIsValid(config);
    if t.rankCount == 1 {
      forall semantics | Lower(config, semantics).Ok?
        ensures HostIssuesInSB(t, Lower(config, semantics).value)
      {
        LoweredTraceIsModeSafe(config, semantics);
        OneRankNeverCrosses(t, Lower(config, semantics).value);
      }
    } else {
      CrossingBreaks(config);
    }
  }
}
