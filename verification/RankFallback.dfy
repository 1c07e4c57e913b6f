/** Without an address layout the lowering sees one rank, while the sequence validator
    takes the coordinate at level 1 for the rank.  Exactly when the two agree. */
module RankFallback {
  import opened Division
  import opened Emission
  import opened FlatBank
  import opened Lowering
  import opened MixedRadix
  import opened ModeBoundaries
  import opened ModeSafety
  import opened Results
  import opened Trace

  /** `_record_rank_ids` without a layout. */
  const FALLBACK := View(Some(1), false)

  /** A configuration without a layout whose PIM records have addresses with a level 1. */
  predicate NoLayout(t: Target) {
    && ValidTarget(t) && t.config.layout.None? && t.config.size >= 2 && LevelsFit(t.config) && BanksFit(t.config)
  }

  /** No record can move level 1: it is neither row nor column, and as a bank level it
      has one value. */
  predicate LevelOneFixed(c: Config)
    requires BanksFit(c) && c.size >= 2
  {
    && c.rowLevel != 1 && c.columnLevel != 1
    && (c.positions.None? ==> c.bankLevel != 1)
    && (c.positions.Some? ==> forall k :: 0 <= k < |c.positions.value| && c.positions.value[k] == 1 ==> c.counts.value[k] == 1)
  }

  // ---- level 1 fixed ----

  lemma PlacedAtOne(c: Config, flat: int, v: seq<int>, controllerOrder: bool)
    requires c.size >= 2 && BanksFit(c) && LevelOneFixed(c) && c.positions.Some? && |v| == c.size && v[1] == 0
    ensures Place(flat, v, c.positions.value, c.counts.value, BankOrder(c.positions.value, controllerOrder))[1] == 0
  {
    var positions, counts, order := c.positions.value, c.counts.value, BankOrder(c.positions.value, controllerOrder);
    BankOrderDistinct(positions, controllerOrder);
    PlaceWritesDigits(flat, v, positions, counts, order);
    if j :| 0 <= j < |order| && positions[order[j]] == 1 {
      assert Permuted(counts, order)[j] == counts[order[j]] == 1;
    }
  }

  lemma AddressAtOne(t: Target, s: Semantic, i: int)
    requires NoLayout(t) && LevelOneFixed(t.config) && PimAddress(t.config, s, i).Ok?
    ensures PimAddress(t.config, s, i).value[1] == 0
  {
    var c := t.config;
    if PerBankKind(s.kind) && c.positions.Some? {
      PlacedAtOne(c, FlatBankOf(s, i), RowColumn(c, s, i), s.controllerOrder);
    }
  }

  function AtZero(c: Config): Concrete -> bool {
    (rec: Concrete) =>
      |rec.addrVec| >= 2 && rec.addrVec[1] == 0 && (rec.interleave.Some? ==> rec.interleave.value.banks == BankMapOf(c))
  }

  lemma AddressesAllowed(t: Target, s: Semantic)
    requires NoLayout(t) && LevelOneFixed(t.config)
    ensures AllowsRecord(t, s, AtZero(t.config))
  {
    forall i | PimAddress(t.config, s, i).Ok?
      ensures AllowsRanks(t, PimAddress(t.config, s, i).value, AtZero(t.config))
    {
      AddressAtOne(t, s, i);
    }
  }

  /** Without a layout a host record is an error: no address can be mapped. */
  lemma HostRecordFails(t: Target, m: Machine, s: Semantic)
    requires ValidTarget(t) && Sized(t, m) && t.config.layout.None?
    ensures WritesHost(t.config, s) ==> LowerRecord(t, m, s).Err?
  {
  }

  lemma {:induction false} TraceAtZero(t: Target, m: Machine, semantics: seq<Semantic>)
    requires NoLayout(t) && Sized(t, m) && LevelOneFixed(t.config) && LowerFrom(t, m, semantics).Ok?
    ensures Adds(m, LowerFrom(t, m, semantics).value, AtZero(t.config))
    decreases |semantics|
  {
    if |semantics| > 0 {
      var next := LowerRecord(t, m, semantics[0]).value;
      HostRecordFails(t, m, semantics[0]);
      AddressesAllowed(t, semantics[0]);
      RecordAdds(t, m, semantics[0], AtZero(t.config));
      TraceAtZero(t, next, semantics[1..]);
      AddsTwice(m, next, LowerFrom(t, m, semantics).value, AtZero(t.config));
    }
  }

  /** Both views see rank 0. */
  lemma SeenAtZero(c: Config, rec: Concrete)
    requires c.size >= 2 && BanksFit(c) && LevelOneFixed(c) && AtZero(c)(rec)
    ensures RanksOf(rec, FALLBACK) == RanksOf(rec, View(None, false)) == {0}
  {
    if rec.opcode == OpMac && rec.interleave.Some? && rec.interleave.value.banks.Some? {
      var positions, counts, banks := c.positions.value, c.counts.value, rec.interleave.value.bankSequence;
      assert forall b :: RankDigit(b, positions, counts, 1, 0) == 0;
      if banks != [] {
        assert RankDigit(banks[0], positions, counts, 1, 0) in RanksOf(rec, FALLBACK);
      }
    }
  }

  lemma {:induction false} SameReplay(strict: bool, a: View, b: View, records: seq<Concrete>)
    requires forall n :: 0 <= n < |records| ==> RanksOf(records[n], a) == RanksOf(records[n], b)
    ensures Replay(strict, a, records) == Replay(strict, b, records)
  {
    if |records| > 0 {
      SameReplay(strict, a, b, records[..|records| - 1]);
    }
  }

  lemma FixedLevelPasses(config: Config, semantics: seq<Semantic>)
    requires config.maxRepeatPerRecord > 0 && Lower(config, semantics).Ok?
    requires NoLayout(Resolve(config).value) && LevelOneFixed(Resolve(config).value.config)
    ensures Replay(false, FALLBACK, Lower(config, semantics).value).Some?
  {
    var t := Resolve(config).value;
    var records := Lower(config, semantics).value;
    LoweredTraceIsModeSafe(config, semantics);
    TraceAtZero(t, Start(t), semantics);
    forall n | 0 <= n < |records|
      ensures RanksOf(records[n], FALLBACK) == RanksOf(records[n], View(None, false))
    {
      SeenAtZero(t.config, records[n]);
    }
    SameReplay(false, FALLBACK, View(None, false), records);
  }

  // ---- level 1 moves ----

  /** One request on one bank, in one cell. */
  function ComputeAt(bank: int, row: int, column: int): Semantic {
    Semantic(PIMCompute, false, NO_ADDRESS, 1, 1, [bank], 1, 1, row, 1, row, column, column, false, NO_MOVE)
  }

  lemma ComputeAtCell(c: Config, bank: int, row: int, column: int)
    requires c.size > 0 && LevelsFit(c)
    ensures var s := ComputeAt(bank, row, column);
      && RowColumn(c, s, 0) == seq(c.size, _ => 0)[c.rowLevel := row][c.columnLevel := column]
      && FlatBankOf(s, 0) == bank
  {
    FirstBank(ComputeAt(bank, row, column));
    QuotSmall(0, 1);
  }

  /** Lowered in SB or out of it, the record ends in one PIM_MAC at its own address. */
  lemma ComputeAtLowers(t: Target, m: Machine, s: Semantic, v: seq<int>)
    requires ValidTarget(t) && Sized(t, m) && t.rankLevel.None? && |m.records| > 0
    requires |s.bankSequence| == 1 && s == ComputeAt(s.bankSequence[0], s.rowStart, s.columnStart)
    requires PimAddress(t.config, s, 0) == Ok(v)
    ensures ToSingleBank(t, m, v).Ok? && LowerRecord(t, m, s).Ok?
    ensures var single := ToSingleBank(t, m, v).value;
      LowerRecord(t, m, s).value == Append(single, OpMac, v, 1, None, None)
  {
    var banks, single := s.bankSequence, ToSingleBank(t, m, v).value;
    assert banks[..1] == banks && banks[..0] == [] && banks[0..0] == [];
    assert TargetRanks(t, v, []) == Ok([]) && TargetRank(t, v, banks[0]) == Ok(0);
    assert InsertRank(0, []) == [0];
    assert TargetRanks(t, v, banks) == Ok([0]);
    assert [0][1..] == [] && SingleBankRanks(t, single, v, []) == Ok(single);
    assert SingleBankRanks(t, m, v, [0]) == Ok(single);
    assert RequestCount(s) == 1 && Quot(1, 1) == 1 && Rem(1, 1) == 0;
    var turn := Turn(Ok(v), 1);
    assert SerialTurns(t.config, s) == [turn];
    assert Splits(0, MAX_REPEAT) == [] && Splits(1, MAX_REPEAT) == [1] && [1][1..] == [] && [turn][1..] == [];
    assert ToSingleBank(t, single, v) == Ok(single);
    var done := Append(single, OpMac, v, 1, None, None);
    assert SerialBanks(t, done, []) == Ok(done);
    assert SerialBanks(t, single, [turn]) == Ok(done);
    assert LowerPerBank(t, m, s, v, [0]) == Ok(done);
  }

  lemma LoadAllAddress(c: Config)
    requires c.size > 0 && LevelsFit(c) && BanksFit(c)
    ensures PimAddress(c, LOAD_ALL, 0) == Ok(seq(c.size, _ => 0))
  {
    QuotSmall(0, 1);
    assert RowColumn(c, LOAD_ALL, 0) == seq(c.size, _ => 0);
    assert c.positions.None? ==> seq(c.size, _ => 0)[c.bankLevel := 0] == seq(c.size, _ => 0);
  }

  /** What LOAD_ALL leaves on a device seen as one rank. */
  lemma LoadAllRecords(t: Target, v: seq<int>)
    requires NoLayout(t) && PimAddress(t.config, LOAD_ALL, 0) == Ok(v) && |v| == t.config.size
    ensures LowerRecord(t, Start(t), LOAD_ALL).Ok?
    ensures LowerRecord(t, Start(t), LOAD_ALL).value
         == Machine([HAB], [true], [Concrete(0, OpHAB, 1, v, None, None), Concrete(1, OpBcast, 1, v, None, None)])
  {
    assert Splits(0, MAX_REPEAT) == [] && Splits(1, MAX_REPEAT) == [1] && [1][1..] == [];
    assert RequestCount(LOAD_ALL) == 1;
    var start, hab := Start(t), Append(Machine([HAB], [false], []), OpHAB, v, 1, None, None);
    assert start == Machine([SB], [false], []);
    assert Track(Append(start, OpHAB, v, 1, None, None), 0, HAB, false) == hab;
    assert ToHostAllBank(t, start, v) == Ok(hab);
    var loaded := Append(hab, OpBcast, v, 1, None, None);
    assert AppendSplits(loaded, OpBcast, v, []) == loaded && AppendSplits(hab, OpBcast, v, [1]) == loaded;
    var ready := loaded.(ready := [true]);
    assert loaded.ready[0 := true] == [true];
    assert LoadRanks(t, ready, v, 1, [1]) == Ok(ready);
    assert LoadRanks(t, start, v, 0, [1]) == Ok(ready);
  }

  /** If the validator accepts the trace so far, it has rank 0 in HAB. */
  ghost predicate ZeroInHab(records: seq<Concrete>) {
    Replay(false, FALLBACK, records).Some? ==> Get(Replay(false, FALLBACK, records).value, 0).mode == HAB
  }

  /** Loads at rank 0 put it into HAB, and no record at rank 1 takes it out. */
  lemma StaysHab(records: seq<Concrete>, rec: Concrete)
    requires |rec.addrVec| >= 2 && rec.interleave.None?
    requires rec.addrVec[1] == 0 ==> rec.opcode == OpHAB || (rec.opcode == OpBcast && ZeroInHab(records))
    requires rec.addrVec[1] != 0 ==> (rec.opcode == OpSB || rec.opcode == OpMac) && ZeroInHab(records)
    ensures ZeroInHab(records + [rec])
  {
    assert (records + [rec])[..|records|] == records;
    assert RanksOf(rec, FALLBACK) == {rec.addrVec[1]};
  }

  lemma MacInHabFails(records: seq<Concrete>, rec: Concrete)
    requires ZeroInHab(records) && |rec.addrVec| >= 2 && rec.addrVec[1] == 0
    requires rec.opcode == OpMac && rec.interleave.None?
    ensures Replay(false, FALLBACK, records + [rec]).None?
  {
    assert (records + [rec])[..|records|] == records;
    assert RanksOf(rec, FALLBACK) == {0};
  }

  /** Some accepted record has coordinate 1 at level 1. */
  lemma MovesLevelOne(t: Target) returns (s: Semantic, v: seq<int>)
    requires NoLayout(t) && !LevelOneFixed(t.config)
    ensures |s.bankSequence| == 1 && s == ComputeAt(s.bankSequence[0], s.rowStart, s.columnStart)
    ensures PimAddress(t.config, s, 0) == Ok(v) && v[1] == 1
  {
    var c := t.config;
    var zeros := seq(c.size, _ => 0);
    if c.positions.None? {
      var bank, row, column := if c.bankLevel == 1 then 1 else 0, if c.rowLevel == 1 then 1 else 0, if c.columnLevel == 1 then 1 else 0;
      if c.bankLevel != 1 && c.columnLevel != 1 {
        column := 0;
      }
      ComputeAtCell(c, bank, row, column);
      s := ComputeAt(bank, row, column);
      v := zeros[c.rowLevel := row][c.columnLevel := column][c.bankLevel := bank];
    } else {
      var positions, counts := c.positions.value, c.counts.value;
      ProductPositive(counts);
      if c.rowLevel == 1 || c.columnLevel == 1 {
        ComputeAtCell(c, 0, 1, 1);
        s := ComputeAt(0, 1, 1);
        var w := zeros[c.rowLevel := 1][c.columnLevel := 1];
        v := Place(0, w, positions, counts, BankOrder(positions, false));
        BankOrderDistinct(positions, false);
        PlaceWritesDigits(0, w, positions, counts, BankOrder(positions, false));
      } else {
        var k :| 0 <= k < |positions| && positions[k] == 1 && counts[k] != 1;
        var digits := seq(|counts|, _ => 0)[k := 1];
        var flat := FlatBankOnto(digits, zeros, positions, counts, false);
        ComputeAtCell(c, flat, 0, 0);
        s := ComputeAt(flat, 0, 0);
        v := Place(flat, zeros, positions, counts, BankOrder(positions, false));
        assert zeros[c.rowLevel := 0][c.columnLevel := 0] == zeros;
      }
    }
  }

  lemma OriginAddress(t: Target)
    requires NoLayout(t)
    ensures PimAddress(t.config, ComputeAt(0, 0, 0), 0).Ok? && PimAddress(t.config, ComputeAt(0, 0, 0), 0).value[1] == 0
  {
    var c := t.config;
    var zeros := seq(c.size, _ => 0);
    ComputeAtCell(c, 0, 0, 0);
    assert zeros[c.rowLevel := 0][c.columnLevel := 0] == zeros;
    if c.positions.Some? {
      ProductPositive(c.counts.value);
      PlaceZero(zeros, c.positions.value, c.counts.value, BankOrder(c.positions.value, false));
    }
  }

  /** Three records: load at rank 0, compute at rank 1, compute at rank 0.  The lowering
      returns its only rank to SB once, at an address of rank 1. */
  lemma MovingLevelFails(t: Target, s: Semantic, v: seq<int>) returns (last: Machine)
    requires NoLayout(t) && |s.bankSequence| == 1 && s == ComputeAt(s.bankSequence[0], s.rowStart, s.columnStart)
    requires PimAddress(t.config, s, 0) == Ok(v) && v[1] == 1
    ensures LowerFrom(t, Start(t), [LOAD_ALL, s, ComputeAt(0, 0, 0)]) == Ok(last)
    ensures Replay(false, FALLBACK, last.records).None?
  {
    var origin := PimAddress(t.config, ComputeAt(0, 0, 0), 0).value;
    OriginAddress(t);
    LoadAllAddress(t.config);
    var zeros := seq(t.config.size, _ => 0);
    LoadAllRecords(t, zeros);
    var loaded := LowerRecord(t, Start(t), LOAD_ALL).value;
    LoadedHab(loaded.records, zeros);
    ComputeAtLowers(t, loaded, s, v);
    var single := ToSingleBank(t, loaded, v).value;
    var moved := LowerRecord(t, loaded, s).value;
    assert single == Track(Append(loaded, OpSB, v, 1, None, None), 0, SB, false);
    StaysHab(loaded.records, single.records[|loaded.records|]);
    StaysHab(single.records, moved.records[|single.records|]);
    ComputeAtLowers(t, moved, ComputeAt(0, 0, 0), origin);
    last := LowerRecord(t, moved, ComputeAt(0, 0, 0)).value;
    assert ToSingleBank(t, moved, origin) == Ok(moved);
    MacInHabFails(moved.records, last.records[|moved.records|]);
    LowerThree(t, Start(t), LOAD_ALL, s, ComputeAt(0, 0, 0));
  }

  lemma LoadedHab(records: seq<Concrete>, v: seq<int>)
    requires |v| >= 2 && v[1] == 0
    requires records == [Concrete(0, OpHAB, 1, v, None, None), Concrete(1, OpBcast, 1, v, None, None)]
    ensures ZeroInHab(records)
  {
    StaysHab([], records[0]);
    StaysHab([] + [records[0]], records[1]);
    assert records == [] + [records[0]] + [records[1]];
  }

  lemma LowerThree(t: Target, m: Machine, a: Semantic, b: Semantic, c: Semantic)
    requires ValidTarget(t) && Sized(t, m) && LowerRecord(t, m, a).Ok? && LowerRecord(t, LowerRecord(t, m, a).value, b).Ok?
    requires LowerRecord(t, LowerRecord(t, LowerRecord(t, m, a).value, b).value, c).Ok?
    ensures LowerFrom(t, m, [a, b, c]) == LowerRecord(t, LowerRecord(t, LowerRecord(t, m, a).value, b).value, c)
  {
    var m1 := LowerRecord(t, m, a).value;
    var m2 := LowerRecord(t, m1, b).value;
    var m3 := LowerRecord(t, m2, c).value;
    assert [a, b, c][1..] == [b, c] && [b, c][1..] == [c] && [c][1..] == [];
    assert LowerFrom(t, m3, []) == Ok(m3);
    assert LowerFrom(t, m2, [c]) == Ok(m3);
    assert LowerFrom(t, m1, [b, c]) == Ok(m3);
  }

  ghost predicate AlwaysPasses(config: Config)
    requires config.maxRepeatPerRecord > 0
  {
    forall semantics | Lower(config, semantics).Ok? :: Replay(false, FALLBACK, Lower(config, semantics).value).Some?
  }

  /** Without a layout, the validator's mode automaton passes for every record list, its
      rank taken from level 1, if and only if no record can move level 1. */
  lemma FallbackPassesExactly(config: Config)
    requires config.maxRepeatPerRecord > 0 && Resolve(config).Ok? && NoLayout(Resolve(config).value)
    ensures AlwaysPasses(config) <==> LevelOneFixed(config)
  {
    var t := Resolve(config).value;
    if LevelOneFixed(config) {
      forall semantics | Lower(config, semantics).Ok?
        ensures Replay(false, FALLBACK, Lower(config, semantics).value).Some?
      {
        FixedLevelPasses(config, semantics);
      }
    } else {
      var s, v := MovesLevelOne(t);
      var last := MovingLevelFails(t, s, v);
      assert Lower(config, [LOAD_ALL, s, ComputeAt(0, 0, 0)]) == Ok(last.records);
    }
  }
}
