/** Every lowered trace keeps the mode contract: the tracking of the lowering and an
    independent replay of the emitted opcodes never disagree. */
module ModeSafety {
  import opened Division
  import opened FlatBank
  import opened HostStream
  import opened MixedRadix
  import opened Lowering
  import opened Results
  import opened Trace

  function Tracked(m: Machine, r: int): RankState
    requires |m.modes| == |m.ready|
  {
    if 0 <= r < |m.modes| then RankState(m.modes[r], m.ready[r]) else RankState(SB, false)
  }

  ghost predicate Agrees(m: Machine, ranks: Ranks)
    requires |m.modes| == |m.ready|
  {
    forall r :: Get(ranks, r) == Tracked(m, r)
  }

  predicate Numbered(records: seq<Concrete>) {
    forall i :: 0 <= i < |records| ==> records[i].id == i
  }

  /** No record touches a rank the device does not have. */
  predicate RanksExist(t: Target, own: bool, records: seq<Concrete>) {
    forall i :: 0 <= i < |records| ==>
      |records[i].addrVec| == t.config.size && Exists(t, RanksOf(records[i], View(t.rankLevel, own)))
  }

  predicate Exists(t: Target, touched: set<int>) {
    forall r :: r in touched ==> 0 <= r < t.rankCount
  }

  /** The records replay legally to exactly the tracked state. */
  ghost predicate Inv(t: Target, own: bool, m: Machine) {
    && Sized(t, m)
    && Numbered(m.records)
    && RanksExist(t, own, m.records)
    && Replay(true, View(t.rankLevel, own), m.records).Some?
    && Agrees(m, Replay(true, View(t.rankLevel, own), m.records).value)
  }

  lemma StartAgrees(t: Target, own: bool)
    requires ValidTarget(t)
    ensures Inv(t, own, Start(t))
  {
  }

  // ----- one emitted record

  lemma ReplayAppend(view: View, records: seq<Concrete>, rec: Concrete)
    requires Replay(true, view, records).Some?
    requires Legal(Replay(true, view, records).value, rec.opcode, RanksOf(rec, view))
    ensures Replay(true, view, records + [rec])
         == Some(After(Replay(true, view, records).value, rec.opcode, RanksOf(rec, view)))
  {
    assert (records + [rec])[..|records|] == records;
  }

  /** Emitting one legal record and tracking what replay does with it. */
  lemma Step(t: Target, own: bool, m: Machine, rec: Concrete, next: Machine)
    requires Inv(t, own, m) && Sized(t, next)
    requires rec.id == |m.records| && next.records == m.records + [rec]
    requires |rec.addrVec| == t.config.size && Exists(t, RanksOf(rec, View(t.rankLevel, own)))
    requires var ranks := Replay(true, View(t.rankLevel, own), m.records).value;
             && Legal(ranks, rec.opcode, RanksOf(rec, View(t.rankLevel, own)))
             && Agrees(next, After(ranks, rec.opcode, RanksOf(rec, View(t.rankLevel, own))))
    ensures Inv(t, own, next)
  {
    ReplayAppend(View(t.rankLevel, own), m.records, rec);
  }

  /** A record that does work leaves the tracking alone. */
  lemma WorkStep(
    t: Target, own: bool, m: Machine, opcode: Opcode, v: seq<int>, repeat: int,
    host: Option<HostBytes>, interleave: Option<Interleave>)
    requires Inv(t, own, m) && |v| == t.config.size
    requires opcode == OpRead || opcode == OpWrite || opcode == OpMac || opcode == OpMacAb
    requires var rec := Concrete(|m.records|, opcode, repeat, v, host, interleave);
             && Exists(t, RanksOf(rec, View(t.rankLevel, own)))
             && forall r :: r in RanksOf(rec, View(t.rankLevel, own)) ==>
               if opcode == OpMacAb then Tracked(m, r) == RankState(HabPim, true) else Tracked(m, r).mode == SB
    ensures Inv(t, own, Append(m, opcode, v, repeat, host, interleave))
  {
    var rec := Concrete(|m.records|, opcode, repeat, v, host, interleave);
    var ranks := Replay(true, View(t.rankLevel, own), m.records).value;
    assert forall r :: r in RanksOf(rec, View(t.rankLevel, own)) ==> Get(ranks, r) == Tracked(m, r);
    Step(t, own, m, rec, Append(m, opcode, v, repeat, host, interleave));
  }

  lemma OneRank(t: Target, own: bool, rec: Concrete)
    requires ValidTarget(t) && |rec.addrVec| == t.config.size && RankId(t, rec.addrVec).Ok?
    requires rec.opcode != OpMac || rec.interleave.None?
    ensures RanksOf(rec, View(t.rankLevel, own)) == {RankId(t, rec.addrVec).value}
  {
  }

  function ModeAfter(opcode: Opcode): RankState
    requires opcode == OpSB || opcode == OpHAB || opcode == OpHabPim || opcode == OpBcast
  {
    match opcode
    case OpSB => RankState(SB, false)
    case OpHAB => RankState(HAB, false)
    case OpHabPim => RankState(HabPim, true)
    case OpBcast => RankState(HAB, true)
  }

  /** A mode record moves the tracked rank the way replay moves it. */
  lemma ModeStep(t: Target, own: bool, m: Machine, opcode: Opcode, v: seq<int>, repeat: int)
    requires ValidTarget(t) && Inv(t, own, m) && |v| == t.config.size && RankId(t, v).Ok?
    requires opcode == OpSB || opcode == OpHAB || opcode == OpHabPim || opcode == OpBcast
    requires opcode == OpBcast ==> m.modes[RankId(t, v).value] == HAB
    requires opcode == OpHabPim ==> m.modes[RankId(t, v).value] == HAB && m.ready[RankId(t, v).value]
    ensures var after := ModeAfter(opcode);
            Inv(t, own, Track(Append(m, opcode, v, repeat, None, None), RankId(t, v).value, after.mode, after.broadcast))
  {
    var rank := RankId(t, v).value;
    var rec := Concrete(|m.records|, opcode, repeat, v, None, None);
    var ranks := Replay(true, View(t.rankLevel, own), m.records).value;
    OneRank(t, own, rec);
    assert Get(ranks, rank) == Tracked(m, rank);
    var next := Track(Append(m, opcode, v, repeat, None, None), rank, ModeAfter(opcode).mode, ModeAfter(opcode).broadcast);
    var moved := After(ranks, opcode, {rank});
    forall r ensures Get(moved, r) == Tracked(next, r) {
      assert Get(ranks, r) == Tracked(m, r);
    }
    Step(t, own, m, rec, next);
  }

  // ----- the closures

  lemma ToSingleBankKeeps(t: Target, own: bool, m: Machine, v: seq<int>)
    requires ValidTarget(t) && Inv(t, own, m) && |v| == t.config.size && ToSingleBank(t, m, v).Ok?
    ensures RankId(t, v).Ok?
    ensures var r := ToSingleBank(t, m, v).value;
            && Inv(t, own, r)
            && r.modes[RankId(t, v).value] == SB
            && (forall x :: 0 <= x < t.rankCount && m.modes[x] == SB ==> r.modes[x] == SB)
  {
    if m.modes[RankId(t, v).value] != SB {
      ModeStep(t, own, m, OpSB, v, 1);
    }
  }

  lemma ToHostAllBankKeeps(t: Target, own: bool, m: Machine, v: seq<int>)
    requires ValidTarget(t) && Inv(t, own, m) && |v| == t.config.size && ToHostAllBank(t, m, v).Ok?
    ensures RankId(t, v).Ok?
    ensures var r := ToHostAllBank(t, m, v).value;
            Inv(t, own, r) && r.modes[RankId(t, v).value] == HAB
  {
    if m.modes[RankId(t, v).value] != HAB {
      ModeStep(t, own, m, OpHAB, v, 1);
    }
  }

  lemma EnsureAllBankLoadKeeps(t: Target, own: bool, m: Machine, v: seq<int>)
    requires ValidTarget(t) && Inv(t, own, m) && |v| == t.config.size && EnsureAllBankLoad(t, m, v).Ok?
    ensures Inv(t, own, EnsureAllBankLoad(t, m, v).value)
  {
    ToHostAllBankKeeps(t, own, m, v);
    var hab := ToHostAllBank(t, m, v).value;
    if !hab.ready[RankId(t, v).value] {
      ModeStep(t, own, hab, OpBcast, v, 1);
    }
  }

  lemma {:induction false} MacSplitsKeep(t: Target, own: bool, m: Machine, opcode: Opcode, v: seq<int>, splits: seq<int>)
    requires ValidTarget(t) && Inv(t, own, m) && |v| == t.config.size && RankId(t, v).Ok?
    requires opcode == OpMac || opcode == OpMacAb
    requires if opcode == OpMacAb then Tracked(m, RankId(t, v).value) == RankState(HabPim, true)
             else m.modes[RankId(t, v).value] == SB
    ensures Inv(t, own, AppendSplits(m, opcode, v, splits))
    decreases |splits|
  {
    if |splits| > 0 {
      OneRank(t, own, Concrete(|m.records|, opcode, splits[0], v, None, None));
      WorkStep(t, own, m, opcode, v, splits[0], None, None);
      MacSplitsKeep(t, own, Append(m, opcode, v, splits[0], None, None), opcode, v, splits[1..]);
    }
  }

  lemma AllBankGroupKeeps(t: Target, own: bool, m: Machine, v: seq<int>, splits: seq<int>)
    requires ValidTarget(t) && Inv(t, own, m) && |v| == t.config.size && AllBankGroup(t, m, v, splits).Ok?
    ensures Inv(t, own, AllBankGroup(t, m, v, splits).value)
  {
    EnsureAllBankLoadKeeps(t, own, m, v);
    var loaded := EnsureAllBankLoad(t, m, v).value;
    ModeStep(t, own, loaded, OpHabPim, v, 1);
    var pim := ToPimAllBank(t, loaded, v).value;
    MacSplitsKeep(t, own, pim, OpMacAb, v, splits);
    ModeStep(t, own, AppendSplits(pim, OpMacAb, v, splits), OpSB, v, 1);
  }

  // ----- host records

  /** One chunk: its rank is in SB when its record is appended. */
  lemma ChunkKeeps(t: Target, own: bool, m: Machine, opcode: Opcode, v: seq<int>, c: Chunk)
    requires ValidTarget(t) && Inv(t, own, m) && (opcode == OpRead || opcode == OpWrite)
    requires |v| == t.config.size && ToSingleBank(t, m, v).Ok?
    ensures Inv(t, own, AppendHost(ToSingleBank(t, m, v).value, opcode, v, c))
  {
    ToSingleBankKeeps(t, own, m, v);
    var single := ToSingleBank(t, m, v).value;
    var rec := AppendHost(single, opcode, v, c).records[|single.records|];
    OneRank(t, own, rec);
    WorkStep(t, own, single, opcode, v, rec.repeat, rec.host, None);
  }

  lemma {:induction false} AppendChunksKeeps(t: Target, own: bool, m: Machine, opcode: Opcode, chunks: seq<Chunk>, done: Machine)
    requires ValidTarget(t) && Inv(t, own, m) && (opcode == OpRead || opcode == OpWrite)
    requires AppendChunks(t, m, opcode, chunks) == Ok(done)
    ensures Inv(t, own, done)
    decreases |chunks|
  {
    if |chunks| > 0 {
      var v := HostVector(t, chunks[0].base).value;
      ChunkKeeps(t, own, m, opcode, v, chunks[0]);
      AppendChunksKeeps(t, own, AppendHost(ToSingleBank(t, m, v).value, opcode, v, chunks[0]), opcode, chunks[1..], done);
    }
  }

  lemma {:induction false} HostRepeatsKeeps(
    t: Target, own: bool, m: Machine, opcode: Opcode, base: int, stride: int, count: int, from: int, repeat: int)
    requires ValidTarget(t) && Inv(t, own, m) && (opcode == OpRead || opcode == OpWrite)
    requires HostRepeats(t, m, opcode, base, stride, count, from, repeat).Ok?
    ensures Inv(t, own, HostRepeats(t, m, opcode, base, stride, count, from, repeat).value)
    decreases repeat - from
  {
    if from < repeat {
      var chunks := HostChunks(RepeatBase(base, stride, count, from), stride, count, MAX_REPEAT, t.config.layout, t.config.policy).value;
      AppendChunksKeeps(t, own, m, opcode, chunks, AppendChunks(t, m, opcode, chunks).value);
      HostRepeatsKeeps(t, own, AppendChunks(t, m, opcode, chunks).value, opcode, base, stride, count, from + 1, repeat);
    }
  }

  // ----- compute records

  lemma RankOfRankAddress(t: Target, base: seq<int>, rank: int)
    requires ValidTarget(t) && |base| == t.config.size && RankId(t, RankAddress(t, base, rank)).Ok?
    ensures t.rankLevel.Some? ==> RankId(t, RankAddress(t, base, rank)).value == rank
  {
  }

  lemma {:induction false} AllBankGroupsKeep(t: Target, own: bool, m: Machine, base: seq<int>, ranks: seq<int>, splits: seq<int>)
    requires ValidTarget(t) && Inv(t, own, m) && |base| == t.config.size
    requires AllBankGroups(t, m, base, ranks, splits).Ok?
    ensures Inv(t, own, AllBankGroups(t, m, base, ranks, splits).value)
    decreases |ranks|
  {
    if |ranks| > 0 {
      var v := RankAddress(t, base, ranks[0]);
      AllBankGroupKeeps(t, own, m, v, splits);
      AllBankGroupsKeep(t, own, AllBankGroup(t, m, v, splits).value, base, ranks[1..], splits);
    }
  }

  /** After the per-rank returns every listed rank is in SB (rank 0 without a Rank level). */
  predicate InSingleBank(t: Target, m: Machine, ranks: seq<int>)
    requires ValidTarget(t) && Sized(t, m)
  {
    forall r :: r in ranks ==>
      if t.rankLevel.None? then m.modes[0] == SB else 0 <= r < t.rankCount && m.modes[r] == SB
  }

  lemma {:induction false} SingleBankRanksKeep(t: Target, own: bool, m: Machine, base: seq<int>, ranks: seq<int>)
    requires ValidTarget(t) && Inv(t, own, m) && |base| == t.config.size && SingleBankRanks(t, m, base, ranks).Ok?
    ensures var r := SingleBankRanks(t, m, base, ranks).value;
            && Inv(t, own, r) && InSingleBank(t, r, ranks)
            && (forall x :: 0 <= x < t.rankCount && m.modes[x] == SB ==> r.modes[x] == SB)
    decreases |ranks|
  {
    if |ranks| > 0 {
      var v := RankAddress(t, base, ranks[0]);
      ToSingleBankKeeps(t, own, m, v);
      RankOfRankAddress(t, base, ranks[0]);
      SingleBankRanksKeep(t, own, ToSingleBank(t, m, v).value, base, ranks[1..]);
      assert forall r :: r in ranks ==> r == ranks[0] || r in ranks[1..];
    }
  }

  lemma {:induction false} InsertRankMembers(x: int, sorted: seq<int>)
    ensures forall r :: r in InsertRank(x, sorted) <==> r == x || r in sorted
  {
    if |sorted| > 0 && x > sorted[0] {
      InsertRankMembers(x, sorted[1..]);
      assert sorted == [sorted[0]] + sorted[1..];
    }
  }

  /** The target list is the image of the bank sequence. */
  lemma {:induction false} TargetRanksMembers(t: Target, base: seq<int>, banks: seq<int>)
    requires ValidTarget(t) && |base| == t.config.size && BanksFit(t.config) && TargetRanks(t, base, banks).Ok?
    ensures forall b :: b in banks ==> TargetRank(t, base, b).Ok? && TargetRank(t, base, b).value in TargetRanks(t, base, banks).value
    ensures forall r :: r in TargetRanks(t, base, banks).value ==>
              exists b :: b in banks && TargetRank(t, base, b) == Ok(r)
  {
    if |banks| > 0 {
      var n := |banks| - 1;
      TargetRanksMembers(t, base, banks[..n]);
      InsertRankMembers(TargetRank(t, base, banks[n]).value, TargetRanks(t, base, banks[..n]).value);
      assert banks == banks[..n] + [banks[n]];
    }
  }

  /** For every flat bank whose rank exists in both orders, the two orders name the same
      rank.  Both sides are computed from the configuration alone. */
  predicate OrdersAgree(t: Target) {
    var c := t.config;
    HasBankRanks(t) ==> forall flat :: 0 <= flat < Product(c.counts.value) ==> !RanksDiffer(t, flat)
  }

  predicate HasBankRanks(t: Target) {
    var c := t.config;
    t.rankLevel.Some? && c.positions.Some? && c.counts.Some? && t.rankLevel.value < c.size
    && BankMap(c.positions.value, c.counts.value, c.size)
  }

  /** The bank's rank in controller order is not the rank used for target selection. */
  predicate RanksDiffer(t: Target, flat: int)
    requires HasBankRanks(t) && 0 <= flat < Product(t.config.counts.value)
  {
    var c := t.config;
    var own := ControllerRank(flat, c.size, c.positions.value, c.counts.value, t.rankLevel.value);
    var target := RankDigit(flat, c.positions.value, c.counts.value, t.rankLevel.value, 0);
    0 <= own < t.rankCount && 0 <= target < t.rankCount && own != target
  }

  function ControllerRank(flat: int, size: nat, positions: seq<int>, counts: seq<int>, rank: nat): int
    requires BankMap(positions, counts, size) && rank < size
  {
    Place(flat, seq(size, _ => 0), positions, counts, BankOrder(positions, true))[rank]
  }

  /** When the rank in a record's own `addr_vec` is sure to be a target too. */
  predicate OwnRankSafe(t: Target) {
    !t.config.interleaveBanks || t.config.macMode == AllBank || OrdersAgree(t)
  }

  /** Request 0 takes the first bank of the sequence. */
  lemma FirstBank(s: Semantic)
    requires |s.bankSequence| > 0
    ensures FlatBankOf(s, 0) == s.bankSequence[0]
  {
    QuotSmall(0, Max(1, s.burstLength));
    QuotSmall(0, |s.bankSequence|);
  }

  lemma OwnRankOfBase(t: Target, s: Semantic, base: seq<int>)
    requires ValidTarget(t) && PerBankKind(s.kind) && PimAddress(t.config, s, 0) == Ok(base)
    requires t.rankLevel.Some? && t.config.positions.Some?
    ensures var c, rank := t.config, t.rankLevel.value;
            && 0 <= s.bankSequence[0] < Product(c.counts.value)
            && base[rank] == Place(s.bankSequence[0], seq(c.size, _ => 0), c.positions.value, c.counts.value,
                                   BankOrder(c.positions.value, s.controllerOrder))[rank]
  {
    var c, rank := t.config, t.rankLevel.value;
    FirstBank(s);
    var v := RowColumn(c, s, 0);
    PlacePointwise(s.bankSequence[0], v, seq(c.size, _ => 0), c.positions.value, c.counts.value,
                   BankOrder(c.positions.value, s.controllerOrder), rank);
  }

  /** The rank in the base vector is the rank target selection finds for its bank. */
  lemma OwnRankIsDigit(t: Target, s: Semantic, base: seq<int>)
    requires ValidTarget(t) && PerBankKind(s.kind) && PimAddress(t.config, s, 0) == Ok(base)
    requires t.rankLevel.Some? && t.config.positions.Some? && 0 <= base[t.rankLevel.value] < t.rankCount
    requires s.controllerOrder ==> OrdersAgree(t)
    requires 0 <= RankDigit(s.bankSequence[0], t.config.positions.value, t.config.counts.value, t.rankLevel.value,
                            base[t.rankLevel.value]) < t.rankCount
    ensures base[t.rankLevel.value] == RankDigit(s.bankSequence[0], t.config.positions.value, t.config.counts.value,
                                                 t.rankLevel.value, base[t.rankLevel.value])
  {
    var c, rank, flat := t.config, t.rankLevel.value, s.bankSequence[0];
    var positions, counts, zeros := c.positions.value, c.counts.value, seq(c.size, _ => 0);
    OwnRankOfBase(t, s, base);
    if rank !in positions {
      assert RankDigit(flat, positions, counts, rank, base[rank]) == base[rank];
    } else {
      assert RankDigit(flat, positions, counts, rank, base[rank]) == RankDigit(flat, positions, counts, rank, 0);
      if s.controllerOrder {
        assert HasBankRanks(t) && !RanksDiffer(t, flat);
      } else {
        RankAgreesInInterleaveOrder(flat, zeros, positions, counts, rank);
      }
    }
  }

  lemma OwnRankTargeted(t: Target, s: Semantic, base: seq<int>)
    requires ValidTarget(t) && PerBankKind(s.kind) && PimAddress(t.config, s, 0) == Ok(base)
    requires t.rankLevel.Some? && RankId(t, base).Ok?
    requires s.controllerOrder ==> OrdersAgree(t)
    requires TargetRanks(t, base, s.bankSequence).Ok?
    requires forall r :: r in TargetRanks(t, base, s.bankSequence).value ==> 0 <= r < t.rankCount
    ensures base[t.rankLevel.value] in TargetRanks(t, base, s.bankSequence).value
  {
    var flat := s.bankSequence[0];
    TargetRanksMembers(t, base, s.bankSequence);
    assert flat in s.bankSequence;
    var target := TargetRank(t, base, flat).value;
    assert target in TargetRanks(t, base, s.bankSequence).value;
    if t.config.positions.Some? {
      OwnRankOfBase(t, s, base);
      OwnRankIsDigit(t, s, base);
    }
  }

  /** A level that is no bank level keeps its value. */
  lemma FallbackIsOwn(flat: int, v: seq<int>, positions: seq<int>, counts: seq<int>, rank: nat, order: seq<nat>)
    requires BankMap(positions, counts, |v|) && rank < |v| && IndicesOf(order, |positions|) && Distinct(order)
    ensures rank !in positions ==> Place(flat, v, positions, counts, order)[rank] == v[rank]
  {
    PlaceWritesDigits(flat, v, positions, counts, order);
  }

  /** Every rank a compact record represents is one of the target ranks. */
  lemma CompactRanksAreTargets(t: Target, own: bool, s: Semantic, base: seq<int>, rec: Concrete)
    requires ValidTarget(t) && |base| == t.config.size && BanksFit(t.config) && t.config.size > 0
    requires |s.bankSequence| > 0 && TargetRanks(t, base, s.bankSequence).Ok?
    requires rec.opcode == OpMac && rec.addrVec == base && rec.interleave.Some?
    requires var i := rec.interleave.value;
             i == CompactFields(t.config, s).(startIndex := i.startIndex)
    requires own && t.rankLevel.Some? ==> base[t.rankLevel.value] in TargetRanks(t, base, s.bankSequence).value
    ensures RankId(t, base).Ok?
    ensures forall r :: r in RanksOf(rec, View(t.rankLevel, own)) ==>
              if t.rankLevel.None? then r == 0 else r in TargetRanks(t, base, s.bankSequence).value
  {
    TargetRanksMembers(t, base, s.bankSequence);
    var b := s.bankSequence[0];
    assert b in s.bankSequence && TargetRank(t, base, b).Ok?;
    if t.rankLevel.Some? && t.config.positions.None? {
      assert RanksOf(rec, View(t.rankLevel, own)) == {RankId(t, base).value};
      assert TargetRank(t, base, b).value == RankId(t, base).value;
    } else if t.rankLevel.Some? {
      forall r | r in RanksOf(rec, View(t.rankLevel, own))
        ensures r in TargetRanks(t, base, s.bankSequence).value
      {
        if !own || r != base[t.rankLevel.value] {
          var x :| x in s.bankSequence && r == RankDigit(x, t.config.positions.value, t.config.counts.value,
                                                       t.rankLevel.value, base[t.rankLevel.value]);
          assert TargetRank(t, base, x).Ok? && TargetRank(t, base, x).value == r;
        }
      }
    }
  }

  lemma {:induction false} AppendCompactKeeps(
    t: Target, own: bool, m: Machine, s: Semantic, base: seq<int>, splits: seq<int>, fields: Interleave)
    requires ValidTarget(t) && Inv(t, own, m) && |base| == t.config.size && BanksFit(t.config) && t.config.size > 0
    requires |s.bankSequence| > 0 && TargetRanks(t, base, s.bankSequence).Ok?
    requires InSingleBank(t, m, TargetRanks(t, base, s.bankSequence).value)
    requires t.rankLevel.None? ==> m.modes[0] == SB
    requires fields == CompactFields(t.config, s).(startIndex := fields.startIndex)
    requires own && t.rankLevel.Some? ==> base[t.rankLevel.value] in TargetRanks(t, base, s.bankSequence).value
    ensures Inv(t, own, AppendCompact(m, base, splits, fields))
    decreases |splits|
  {
    if |splits| > 0 {
      var rec := Concrete(|m.records|, OpMac, splits[0], base, None, Some(fields));
      CompactRanksAreTargets(t, own, s, base, rec);
      WorkStep(t, own, m, OpMac, base, splits[0], None, Some(fields));
      var next := Append(m, OpMac, base, splits[0], None, Some(fields));
      AppendCompactKeeps(t, own, next, s, base, splits[1..], fields.(startIndex := fields.startIndex + splits[0]));
    }
  }

  lemma SerialBankKeeps(t: Target, own: bool, m: Machine, v: seq<int>, splits: seq<int>)
    requires ValidTarget(t) && Inv(t, own, m) && |v| == t.config.size && ToSingleBank(t, m, v).Ok?
    ensures Inv(t, own, AppendSplits(ToSingleBank(t, m, v).value, OpMac, v, splits))
  {
    ToSingleBankKeeps(t, own, m, v);
    MacSplitsKeep(t, own, ToSingleBank(t, m, v).value, OpMac, v, splits);
  }

  lemma {:induction false} SerialBanksKeep(t: Target, own: bool, m: Machine, turns: seq<Turn>, done: Machine)
    requires ValidTarget(t) && Inv(t, own, m)
    requires forall i :: 0 <= i < |turns| ==> ProperTurn(turns[i], t.config.size)
    requires SerialBanks(t, m, turns) == Ok(done)
    ensures Inv(t, own, done)
    decreases |turns|
  {
    if |turns| > 0 {
      if turns[0].share == 0 {
        SerialBanksKeep(t, own, m, turns[1..], done);
      } else {
        var v, splits := turns[0].address.value, Splits(turns[0].share, MAX_REPEAT);
        SerialBankKeeps(t, own, m, v, splits);
        SerialBanksKeep(t, own, AppendSplits(ToSingleBank(t, m, v).value, OpMac, v, splits), turns[1..], done);
      }
    }
  }

  /** The opening `SB` of an otherwise empty trace changes no tracked state. */
  lemma OpeningSingleBank(t: Target, own: bool, m: Machine, base: seq<int>)
    requires ValidTarget(t) && Inv(t, own, m) && |base| == t.config.size && RankId(t, base).Ok? && |m.records| == 0
    ensures Inv(t, own, Append(m, OpSB, base, 1, None, None))
  {
    var rank := RankId(t, base).value;
    assert Get(map[], rank) == Tracked(m, rank);
    ModeStep(t, own, m, OpSB, base, 1);
    assert m.modes[rank := SB] == m.modes && m.ready[rank := false] == m.ready;
  }

  lemma LowerPerBankKeeps(t: Target, own: bool, m: Machine, s: Semantic, base: seq<int>)
    requires PerBankKind(s.kind) && PimAddress(t.config, s, 0) == Ok(base) && !TakesAllBankPath(t.config, s)
    requires own ==> OwnRankSafe(t)
    requires ValidTarget(t) && Inv(t, own, m) && |base| == t.config.size && BanksFit(t.config) && t.config.size > 0
    requires |s.bankSequence| > 0 && TargetRanks(t, base, s.bankSequence).Ok?
    requires LowerPerBank(t, m, s, base, TargetRanks(t, base, s.bankSequence).value).Ok?
    ensures Inv(t, own, LowerPerBank(t, m, s, base, TargetRanks(t, base, s.bankSequence).value).value)
  {
    var ranks := TargetRanks(t, base, s.bankSequence).value;
    TargetRanksMembers(t, base, s.bankSequence);
    assert s.bankSequence[0] in s.bankSequence;
    assert |ranks| > 0 && ranks[0] in ranks;
    SingleBankRanksKeep(t, own, m, base, ranks);
    var single := SingleBankRanks(t, m, base, ranks).value;
    if |single.records| == 0 {
      OpeningSingleBank(t, own, single, base);
    }
    var begun := if |single.records| == 0 then Append(single, OpSB, base, 1, None, None) else single;
    if t.config.interleaveBanks && |s.bankSequence| > 1 {
      if own && t.rankLevel.Some? {
        OwnRankTargeted(t, s, base);
      }
      AppendCompactKeeps(t, own, begun, s, base, Splits(RequestCount(s), t.config.maxRepeatPerRecord), CompactFields(t.config, s));
    } else {
      SerialBanksKeep(t, own, begun, SerialTurns(t.config, s), SerialBanks(t, begun, SerialTurns(t.config, s)).value);
    }
  }

  // ----- all-bank loads and computes

  lemma {:induction false} SplitsCommuteWithReady(m: Machine, opcode: Opcode, v: seq<int>, splits: seq<int>, ready: seq<bool>)
    ensures AppendSplits(m, opcode, v, splits).(ready := ready)
         == AppendSplits(m.(ready := ready), opcode, v, splits)
    decreases |splits|
  {
    if |splits| > 0 {
      SplitsCommuteWithReady(Append(m, opcode, v, splits[0], None, None), opcode, v, splits[1..], ready);
    }
  }

  lemma {:induction false} BcastSplitsKeep(t: Target, own: bool, m: Machine, v: seq<int>, splits: seq<int>)
    requires ValidTarget(t) && Inv(t, own, m) && |v| == t.config.size && RankId(t, v).Ok?
    requires m.modes[RankId(t, v).value] == HAB
    requires |splits| > 0 || m.ready[RankId(t, v).value]
    ensures Inv(t, own, AppendSplits(m, OpBcast, v, splits).(ready := m.ready[RankId(t, v).value := true]))
    decreases |splits|
  {
    var rank := RankId(t, v).value;
    var ready := m.ready[rank := true];
    if |splits| == 0 {
      assert ready == m.ready;
    } else {
      ModeStep(t, own, m, OpBcast, v, splits[0]);
      assert m.modes[rank := HAB] == m.modes;
      var next := Append(m, OpBcast, v, splits[0], None, None);
      BcastSplitsKeep(t, own, next.(ready := ready), v, splits[1..]);
      SplitsCommuteWithReady(next, OpBcast, v, splits[1..], ready);
      assert ready[rank := true] == ready;
    }
  }

  lemma {:induction false} LoadRanksKeep(t: Target, own: bool, m: Machine, base: seq<int>, rank: int, splits: seq<int>)
    requires ValidTarget(t) && Inv(t, own, m) && |base| == t.config.size && 0 <= rank && |splits| > 0
    requires LoadRanks(t, m, base, rank, splits).Ok?
    ensures Inv(t, own, LoadRanks(t, m, base, rank, splits).value)
    decreases t.rankCount - rank
  {
    if rank < t.rankCount {
      var v := RankAddress(t, base, rank);
      ToHostAllBankKeeps(t, own, m, v);
      RankOfRankAddress(t, base, rank);
      var hab := ToHostAllBank(t, m, v).value;
      BcastSplitsKeep(t, own, hab, v, splits);
      var loaded := AppendSplits(hab, OpBcast, v, splits);
      LoadRanksKeep(t, own, loaded.(ready := loaded.ready[rank := true]), base, rank + 1, splits);
    }
  }

  lemma {:induction false} ComputeRequestsKeep(t: Target, own: bool, m: Machine, addresses: seq<Result<seq<int>>>, done: Machine)
    requires ValidTarget(t) && Inv(t, own, m)
    requires forall i :: 0 <= i < |addresses| && addresses[i].Ok? ==> |addresses[i].value| == t.config.size
    requires forall i :: 0 <= i < |addresses| && addresses[i].Err? ==> addresses[i].error != BroadcastMissing
    requires ComputeRequests(t, m, addresses) == Ok(done)
    ensures Inv(t, own, done)
    decreases |addresses|
  {
    if |addresses| > 0 {
      var v := addresses[0].value;
      AllBankGroupsKeep(t, own, m, v, AllRanks(t), [1]);
      ComputeRequestsKeep(t, own, AllBankGroups(t, m, v, AllRanks(t), [1]).value, addresses[1..], done);
    }
  }

  // ----- records and traces

  lemma LowerRecordKeeps(t: Target, own: bool, m: Machine, s: Semantic)
    requires ValidTarget(t) && Inv(t, own, m) && LowerRecord(t, m, s).Ok?
    requires own ==> OwnRankSafe(t) || !BanksFit(t.config)
    ensures Inv(t, own, LowerRecord(t, m, s).value)
  {
    if s.kind == OtherKind || s.accountingOnly {
    } else if HostKind(s.kind) {
      HostRepeatsKeeps(t, own, m, if s.kind == HostWrite then OpWrite else OpRead,
                       s.address.base.value, s.address.stride.value, s.address.count.value, 0, s.repeat);
    } else if s.kind == PIMDataMove && s.movement.isWeight {
      if t.config.materializeWeights {
        HostRepeatsKeeps(t, own, m, OpWrite, WeightBase(s.movement), s.movement.txBytes, WeightCount(s.movement), 0, s.repeat);
      }
    } else {
      var base := PimAddress(t.config, s, 0).value;
      MulPositive(s.numRequests, s.repeat);
      if PerBankKind(s.kind) {
        if TakesAllBankPath(t.config, s) {
          AllBankGroupsKeep(t, own, m, base, TargetRanks(t, base, s.bankSequence).value,
                            Splits(AllBankIssues(s), t.config.maxRepeatPerRecord));
        } else {
          LowerPerBankKeeps(t, own, m, s, base);
        }
      } else if AllBankLoadKind(s.kind) {
        if s.kind != PIMDataMove || s.movement.kind == BroadcastLoad {
          LoadRanksKeep(t, own, m, base, 0, Splits(RequestCount(s), MAX_REPEAT));
        }
      } else {
        ComputeRequestsKeep(t, own, m, RequestAddresses(t.config, s), ComputeRequests(t, m, RequestAddresses(t.config, s)).value);
      }
    }
  }

  lemma {:induction false} LowerFromKeeps(t: Target, own: bool, m: Machine, semantics: seq<Semantic>)
    requires ValidTarget(t) && Inv(t, own, m) && LowerFrom(t, m, semantics).Ok?
    requires own ==> OwnRankSafe(t) || !BanksFit(t.config)
    ensures Inv(t, own, LowerFrom(t, m, semantics).value)
    decreases |semantics|
  {
    if |semantics| > 0 {
      LowerRecordKeeps(t, own, m, semantics[0]);
      LowerFromKeeps(t, own, LowerRecord(t, m, semantics[0]).value, semantics[1..]);
    }
  }

  /** Mode safety.  For every configuration and record list the lowering accepts, the
      emitted trace keeps the README's mode contract from all ranks in SB, hence passes
      the mode checks of `validate_sequence`, its record names are distinct, and every
      rank it touches exists. */
  lemma LoweredTraceIsModeSafe(config: Config, semantics: seq<Semantic>)
    requires config.maxRepeatPerRecord > 0 && Lower(config, semantics).Ok?
    ensures var records := Lower(config, semantics).value;
            var view := View(Resolve(config).value.rankLevel, false);
            && Replay(true, view, records).Some?
            && Replay(false, view, records).Some?
            && Numbered(records)
            && RanksExist(Resolve(config).value, false, records)
  {
    var t := Resolve(config).value;
    ResolvedTargetIsValid(config);
    StartAgrees(t, false);
    LowerFromKeeps(t, false, Start(t), semantics);
    ContractImpliesValidator(View(t.rankLevel, false), Lower(config, semantics).value);
  }
}
