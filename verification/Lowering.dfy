/** `lower_semantic_records_to_concrete`: what each closure and each branch of the
    lowering does to the record list and the per-rank mode tracking.  The loops and
    assignments themselves are in Lowerers.dfy. */
module Lowering {
  import opened Addressing
  import opened Division
  import opened FlatBank
  import opened HostStream
  import opened MixedRadix
  import opened Results
  import opened Trace

  const MAX_REPEAT: int := 1_000_000

  datatype Kind =
    | HostRead | HostWrite
    | PIMCompute | AttentionScore | AttentionContext
    | FFNProjection | MoERouter | MoEExpertFFN
    | PIMLoadAll | PIMDataMove
    | PIMComputeAll
    | OtherKind

  datatype MovementKind = BroadcastLoad | AccountingOnlyMove | OtherMove

  datatype MacMode = PerKind | AllBank | PerBank | UnknownMacMode

  datatype AddressPolicy = AddressPolicy(base: Option<int>, stride: Option<int>, count: Option<int>)

  /** Fields of a PIMDataMove that place its weights in host memory. */
  datatype Movement = Movement(
    isWeight: bool,
    kind: MovementKind,
    elements: int,
    txBytes: int,
    isInt8: bool,
    layer: int,
    stage: int,
    tile: int,
    expert: Option<int>,
    op: string)

  /** A semantic record.  A field the record may omit holds the default the code reads. */
  datatype Semantic = Semantic(
    kind: Kind,
    accountingOnly: bool,
    address: AddressPolicy,
    repeat: int,
    numRequests: int,
    bankSequence: seq<int>,
    burstLength: int,
    dependencyCount: int,
    rowStart: int,
    rowCount: int,
    resolvedRow: int,
    columnStart: int,
    resolvedColumn: int,
    controllerOrder: bool,
    movement: Movement)

  /** The keyword arguments of the lowering. */
  datatype Config = Config(
    size: int,
    bankLevel: int,
    positions: Option<seq<int>>,
    counts: Option<seq<int>>,
    rowLevel: int,
    columnLevel: int,
    materializeWeights: bool,
    interleaveBanks: bool,
    depth: int,
    maxRepeatPerRecord: int,
    macMode: MacMode,
    layout: Option<Layout>,
    policy: Policy)

  /** A configuration after the entry checks, with the Rank level it resolved to. */
  datatype Target = Target(config: Config, rankLevel: Option<nat>, rankCount: int)

  function Resolve(config: Config): Result<Target> {
    if config.policy == UnknownPolicy then Err(UnsupportedPolicy)
    else if config.layout.None? then
      if config.macMode == UnknownMacMode then Err(UnsupportedMacMode)
      else Ok(Target(config, None, 1))
    else
      var l := config.layout.value;
      var rank, row, column, bank :=
        IndexOf(l.levelNames, "Rank"), IndexOf(l.levelNames, "Row"),
        IndexOf(l.levelNames, "Column"), IndexOf(l.levelNames, "Bank");
      if |l.levelNames| != config.size then Err(BadLayout)
      else if rank.None? || rank.value >= |l.levelSizes| || l.levelSizes[rank.value] <= 0 then Err(BadLayout)
      else if row.None? || column.None? || bank.None? then Err(BadLayout)
      else
        var given := config.positions.Some? && config.counts.Some?;
        var resolved := config.(
          bankLevel := bank.value, rowLevel := row.value, columnLevel := column.value,
          positions := if given then config.positions else Some(l.bankPositions),
          counts := if given then config.counts else Some(l.bankCounts));
        if config.macMode == UnknownMacMode then Err(UnsupportedMacMode)
        else Ok(Target(resolved, Some(rank.value), l.levelSizes[rank.value]))
  }

  predicate ValidTarget(t: Target) {
    && t.rankCount >= 1
    && t.config.maxRepeatPerRecord > 0
    && t.config.policy != UnknownPolicy
    && (t.rankLevel.None? <==> t.config.layout.None?)
    && (t.rankLevel.None? ==> t.rankCount == 1)
    && (t.rankLevel.Some? ==>
          && t.rankLevel.value < t.config.size == |t.config.layout.value.levelNames|
          && t.rankLevel.value < |t.config.layout.value.levelSizes|
          && t.rankCount == t.config.layout.value.levelSizes[t.rankLevel.value]
          && t.rankLevel.value != t.config.rowLevel && t.rankLevel.value != t.config.columnLevel
          && t.rankLevel.value != t.config.bankLevel)
  }

  /** The bank counts are the sizes of their levels, as every layout has them. */
  predicate CountsOfLevels(t: Target)
    requires t.config.layout.Some?
  {
    var sizes := t.config.layout.value.levelSizes;
    && |sizes| == t.config.size && Positive(sizes)
    && t.config.positions.Some? && t.config.counts.Some?
    && CountsFollow(t.config.positions.value, t.config.counts.value, sizes)
  }

  /** What `validate_record` asks of the configuration behind a compact record. */
  predicate CompactChecked(t: Target)
    requires t.config.layout.Some?
  {
    t.config.depth >= 1 && CountsOfLevels(t)
  }

  lemma ResolvedTargetIsValid(config: Config)
    requires Resolve(config).Ok? && config.maxRepeatPerRecord > 0
    ensures ValidTarget(Resolve(config).value)
  {
  }

  predicate HostKind(k: Kind) { k == HostRead || k == HostWrite }

  predicate PerBankKind(k: Kind) {
    k == PIMCompute || k == AttentionScore || k == AttentionContext
    || k == FFNProjection || k == MoERouter || k == MoEExpertFFN
  }

  predicate AllBankLoadKind(k: Kind) { k == PIMLoadAll || k == PIMDataMove }

  /** `resolve_mac_mode`: weight-stationary kinds broadcast, everything else does not. */
  predicate UsesAllBankMac(macMode: MacMode, kind: Kind) {
    macMode == AllBank
    || (macMode == PerKind && (kind == FFNProjection || kind == MoERouter || kind == MoEExpertFFN))
  }

  // ----- _addr_vec_from_semantic

  predicate LevelsFit(c: Config) {
    && 0 <= c.bankLevel < c.size && 0 <= c.rowLevel < c.size && 0 <= c.columnLevel < c.size
  }

  predicate BanksFit(c: Config) {
    && (c.positions.Some? <==> c.counts.Some?)
    && (c.positions.Some? && c.counts.Some? && c.size >= 0 ==>
          && BankMap(c.positions.value, c.counts.value, c.size)
          && c.rowLevel !in c.positions.value && c.columnLevel !in c.positions.value)
  }

  /** Row and column of request `index`, written into an all-zero vector. */
  function RowColumn(c: Config, s: Semantic, index: int): (v: seq<int>)
    requires c.size > 0 && LevelsFit(c)
    ensures |v| == c.size
  {
    var span := if PerBankKind(s.kind) then Max(1, |s.bankSequence|) else 1;
    var dependencies := Max(1, s.dependencyCount);
    var phase := Quot(Quot(index, Max(1, s.burstLength)), span);
    var row := s.rowStart + Rem((s.resolvedRow - s.rowStart) + Quot(phase, dependencies), Max(1, s.rowCount));
    var column := s.columnStart + Rem((s.resolvedColumn - s.columnStart) + phase, dependencies);
    seq(c.size, _ => 0)[c.rowLevel := row][c.columnLevel := column]
  }

  function FlatBankOf(s: Semantic, index: int): int
    requires |s.bankSequence| > 0
  {
    s.bankSequence[Rem(Quot(index, Max(1, s.burstLength)), |s.bankSequence|)]
  }

  function PimAddress(c: Config, s: Semantic, index: int): (r: Result<seq<int>>)
    ensures r.Ok? ==> c.size > 0 && LevelsFit(c) && BanksFit(c) && |r.value| == c.size
    ensures r.Ok? && PerBankKind(s.kind) ==> |s.bankSequence| > 0
    ensures r.Err? ==> r.error != BroadcastMissing
  {
    if c.size <= 0 then Err(BadArgument)
    else if !LevelsFit(c) then Err(BadLevel)
    else if !BanksFit(c) then Err(BadBankMap)
    else
      var v := RowColumn(c, s, index);
      if PerBankKind(s.kind) then
        if |s.bankSequence| == 0 then Err(MissingBanks)
        else
          var flat := FlatBankOf(s, index);
          if flat < 0 then Err(BankOutOfRange)
          else if c.positions.Some? then
            if flat >= Product(c.counts.value) then Err(BankOutOfRange)
            else Ok(Place(flat, v, c.positions.value, c.counts.value, BankOrder(c.positions.value, s.controllerOrder)))
          else Ok(v[c.bankLevel := flat])
      else if c.positions.None? then Ok(v[c.bankLevel := 0])
      else Ok(v)
  }

  // ----- the closures

  /** Tracked modes, tracked broadcast flags, and the records emitted so far. */
  datatype Machine = Machine(modes: seq<Mode>, ready: seq<bool>, records: seq<Concrete>)

  predicate Sized(t: Target, m: Machine) {
    |m.modes| == |m.ready| == t.rankCount
  }

  function Start(t: Target): Machine
    requires t.rankCount >= 1
  {
    Machine(seq(t.rankCount, _ => SB), seq(t.rankCount, _ => false), [])
  }

  function Append(
    m: Machine, opcode: Opcode, addrVec: seq<int>, repeat: int,
    host: Option<HostBytes>, interleave: Option<Interleave>): Machine
  {
    m.(records := m.records + [Concrete(|m.records|, opcode, repeat, addrVec, host, interleave)])
  }

  function Track(m: Machine, rank: int, mode: Mode, ready: bool): (r: Machine)
    requires 0 <= rank < |m.modes| == |m.ready|
  {
    m.(modes := m.modes[rank := mode], ready := m.ready[rank := ready])
  }

  function RankId(t: Target, v: seq<int>): (r: Result<int>)
    requires ValidTarget(t) && |v| == t.config.size
    ensures r.Ok? ==> 0 <= r.value < t.rankCount
    ensures r.Err? ==> r.error != BroadcastMissing
  {
    if t.rankLevel.None? then Ok(0)
    else if 0 <= v[t.rankLevel.value] < t.rankCount then Ok(v[t.rankLevel.value])
    else Err(RankOutOfRange)
  }

  function RankAddress(t: Target, v: seq<int>, rank: int): (r: seq<int>)
    requires ValidTarget(t) && |v| == t.config.size
    ensures |r| == |v|
  {
    if t.rankLevel.None? then v else v[t.rankLevel.value := rank]
  }

  function ToSingleBank(t: Target, m: Machine, v: seq<int>): (r: Result<Machine>)
    requires ValidTarget(t) && Sized(t, m) && |v| == t.config.size
    ensures r.Ok? ==> Sized(t, r.value)
    ensures r.Err? ==> r.error != BroadcastMissing
  {
    var rank :- RankId(t, v);
    if m.modes[rank] == SB then Ok(m)
    else Ok(Track(Append(m, OpSB, v, 1, None, None), rank, SB, false))
  }

  function ToHostAllBank(t: Target, m: Machine, v: seq<int>): (r: Result<Machine>)
    requires ValidTarget(t) && Sized(t, m) && |v| == t.config.size
    ensures r.Ok? ==> Sized(t, r.value)
    ensures r.Err? ==> r.error != BroadcastMissing
  {
    var rank :- RankId(t, v);
    if m.modes[rank] == HAB then Ok(m)
    else Ok(Track(Append(m, OpHAB, v, 1, None, None), rank, HAB, false))
  }

  function EnsureAllBankLoad(t: Target, m: Machine, v: seq<int>): (r: Result<Machine>)
    requires ValidTarget(t) && Sized(t, m) && |v| == t.config.size
    ensures r.Ok? ==> Sized(t, r.value)
    ensures r.Err? ==> r.error != BroadcastMissing
    ensures r.Ok? ==> RankId(t, v).Ok? && r.value.modes[RankId(t, v).value] == HAB && r.value.ready[RankId(t, v).value]
  {
    var rank :- RankId(t, v);
    var hab :- ToHostAllBank(t, m, v);
    if hab.ready[rank] then Ok(hab)
    else Ok(Track(Append(hab, OpBcast, v, 1, None, None), rank, HAB, true))
  }

  function ToPimAllBank(t: Target, m: Machine, v: seq<int>): (r: Result<Machine>)
    requires ValidTarget(t) && Sized(t, m) && |v| == t.config.size
    ensures r.Ok? ==> Sized(t, r.value)
  {
    var rank :- RankId(t, v);
    if m.modes[rank] == HabPim then Ok(m)
    else if m.modes[rank] != HAB || !m.ready[rank] then Err(BroadcastMissing)
    else Ok(Track(Append(m, OpHabPim, v, 1, None, None), rank, HabPim, true))
  }

  /** The closing `SB` of an all-bank group, which is emitted unconditionally. */
  function CloseAllBank(t: Target, m: Machine, v: seq<int>, rank: int): (r: Machine)
    requires Sized(t, m) && 0 <= rank < t.rankCount
    ensures Sized(t, r)
  {
    Track(Append(m, OpSB, v, 1, None, None), rank, SB, false)
  }

  // ----- repeat splitting

  /** `_split_repeat` and the three inline loops of the same shape. */
  function Splits(repeat: int, maxRepeat: int): (s: seq<int>)
    requires maxRepeat > 0
    ensures forall i :: 0 <= i < |s| ==> 1 <= s[i] <= maxRepeat
    decreases repeat
  {
    if repeat <= 0 then []
    else [Min(maxRepeat, repeat)] + Splits(repeat - Min(maxRepeat, repeat), maxRepeat)
  }

  function AppendSplits(m: Machine, opcode: Opcode, v: seq<int>, splits: seq<int>): (r: Machine)
    ensures r.modes == m.modes && r.ready == m.ready
    decreases |splits|
  {
    if |splits| == 0 then m
    else AppendSplits(Append(m, opcode, v, splits[0], None, None), opcode, v, splits[1..])
  }

  /** Compact records carry the running start index of their chunk. */
  function AppendCompact(m: Machine, v: seq<int>, splits: seq<int>, fields: Interleave): (r: Machine)
    ensures r.modes == m.modes && r.ready == m.ready
    decreases |splits|
  {
    if |splits| == 0 then m
    else
      AppendCompact(Append(m, OpMac, v, splits[0], None, Some(fields)), v, splits[1..],
                    fields.(startIndex := fields.startIndex + splits[0]))
  }

  // ----- host records

  function AppendChunks(t: Target, m: Machine, opcode: Opcode, chunks: seq<Chunk>): (r: Result<Machine>)
    requires ValidTarget(t) && Sized(t, m)
    ensures r.Ok? ==> Sized(t, r.value)
    ensures r.Err? ==> r.error != BroadcastMissing
    decreases |chunks|
  {
    if |chunks| == 0 then Ok(m)
    else
      var v :- HostVector(t, chunks[0].base);
      var single :- ToSingleBank(t, m, v);
      AppendChunks(t, AppendHost(single, opcode, v, chunks[0]), opcode, chunks[1..])
  }

  /** `addr_byte_stride` is written only when the chunk really moves. */
  function AppendHost(m: Machine, opcode: Opcode, v: seq<int>, c: Chunk): (r: Machine)
    ensures r.modes == m.modes && r.ready == m.ready
  {
    Append(m, opcode, v, c.repeat, Some(HostBytes(c.base, if c.repeat > 1 && c.stride > 0 then c.stride else 0)), None)
  }

  function HostVector(t: Target, address: int): (r: Result<seq<int>>)
    ensures r.Ok? ==> |r.value| == t.config.size
    ensures r.Err? ==> r.error != BroadcastMissing
  {
    if t.config.layout.None? then Err(BadLayout)
    else
      var l := t.config.layout.value;
      if |l.levelNames| != t.config.size then Err(BadLayout)
      else MapAddress(address, l.levelNames, l.levelSizes, l.prefetch, l.txBytes)
  }

  /** Logical base of repetition `from` of a host stream. */
  function RepeatBase(base: int, stride: int, count: int, from: int): int {
    base + from * count * stride
  }

  function HostRepeats(
    t: Target, m: Machine, opcode: Opcode, base: int, stride: int, count: int, from: int, repeat: int)
    : (r: Result<Machine>)
    requires ValidTarget(t) && Sized(t, m)
    ensures r.Ok? ==> Sized(t, r.value)
    ensures r.Err? ==> r.error != BroadcastMissing
    decreases repeat - from
  {
    if from >= repeat then Ok(m)
    else
      var chunks :- HostChunks(RepeatBase(base, stride, count, from), stride, count, MAX_REPEAT, t.config.layout, t.config.policy);
      var next :- AppendChunks(t, m, opcode, chunks);
      HostRepeats(t, next, opcode, base, stride, count, from + 1, repeat)
  }

  function LowerHost(t: Target, m: Machine, s: Semantic): (r: Result<Machine>)
    requires ValidTarget(t) && Sized(t, m)
    ensures r.Ok? ==> Sized(t, r.value)
    ensures r.Err? ==> r.error != BroadcastMissing
  {
    var a := s.address;
    if a.base.None? || a.stride.None? || a.count.None? then Err(MissingField)
    else if a.base.value < 0 then Err(NegativeAddress)
    else if a.stride.value <= 0 || a.count.value <= 0 || s.repeat <= 0 then Err(BadArgument)
    else
      HostRepeats(t, m, if s.kind == HostWrite then OpWrite else OpRead,
                  a.base.value, a.stride.value, a.count.value, 0, s.repeat)
  }

  /** Weight preloads: a synthetic base address per layer, stage, expert, tile and op. */
  function OpSum(op: string): int {
    if |op| == 0 then 0 else OpSum(op[..|op| - 1]) + |op| * (op[|op| - 1] as int)
  }

  function WeightBase(w: Movement): int {
    (1_000_000_000 + w.layer * 1_000_000 + w.stage * 100_000
     + (if w.expert.None? then 999 else w.expert.value) * 1_000 + w.tile * 10 + Rem(OpSum(w.op), 1_000))
    * w.txBytes
  }

  function WeightCount(w: Movement): int
    requires w.txBytes > 0
  {
    Max(1, CeilDiv(Max(1, w.elements * (if w.isInt8 then 1 else 2)), w.txBytes))
  }

  function LowerWeights(t: Target, m: Machine, s: Semantic): (r: Result<Machine>)
    requires ValidTarget(t) && Sized(t, m)
    ensures r.Ok? ==> Sized(t, r.value)
    ensures r.Err? ==> r.error != BroadcastMissing
  {
    var w := s.movement;
    if t.config.policy != BoundedSurrogate then Err(UnsupportedPolicy)
    else if w.elements <= 0 || w.txBytes <= 0 || s.repeat <= 0 then Err(BadArgument)
    else HostRepeats(t, m, OpWrite, WeightBase(w), w.txBytes, WeightCount(w), 0, s.repeat)
  }

  // ----- target ranks

  function InsertRank(x: int, sorted: seq<int>): seq<int> {
    if |sorted| == 0 || x < sorted[0] then [x] + sorted
    else if x == sorted[0] then sorted
    else [sorted[0]] + InsertRank(x, sorted[1..])
  }

  function TargetRank(t: Target, base: seq<int>, flat: int): (r: Result<int>)
    requires ValidTarget(t) && |base| == t.config.size && BanksFit(t.config)
    ensures r.Err? ==> r.error != BroadcastMissing
  {
    var c := t.config;
    if t.rankLevel.None? || c.positions.None? then RankId(t, base)
    else if flat < 0 || flat >= Product(c.counts.value) then Err(BankOutOfRange)
    else
      var own :- RankId(t, base);
      Ok(RankDigit(flat, c.positions.value, c.counts.value, t.rankLevel.value, own))
  }

  /** `sorted({rank_for_flat_bank(bank) for bank in bank_sequence})`. */
  function TargetRanks(t: Target, base: seq<int>, banks: seq<int>): (r: Result<seq<int>>)
    requires ValidTarget(t) && |base| == t.config.size && BanksFit(t.config)
    ensures r.Err? ==> r.error != BroadcastMissing
  {
    if |banks| == 0 then Ok([])
    else
      var n := |banks| - 1;
      var earlier :- TargetRanks(t, base, banks[..n]);
      var rank :- TargetRank(t, base, banks[n]);
      Ok(InsertRank(rank, earlier))
  }

  // ----- compute records

  function RequestCount(s: Semantic): int {
    s.numRequests * s.repeat
  }

  function AllBankIssues(s: Semantic): int
    requires |s.bankSequence| > 0
  {
    Max(1, CeilDiv(RequestCount(s), |s.bankSequence|))
  }

  /** One rank-local HAB -> PIM_BCAST -> HAB_PIM -> PIM_MAC_AB... -> SB group. */
  function AllBankGroup(t: Target, m: Machine, v: seq<int>, splits: seq<int>): (r: Result<Machine>)
    requires ValidTarget(t) && Sized(t, m) && |v| == t.config.size
    ensures r.Ok? ==> Sized(t, r.value)
    ensures r.Err? ==> r.error != BroadcastMissing
  {
    var loaded :- EnsureAllBankLoad(t, m, v);
    var pim := ToPimAllBank(t, loaded, v);
    if pim.Err? then Err(BroadcastMissing)
    else Ok(CloseAllBank(t, AppendSplits(pim.value, OpMacAb, v, splits), v, RankId(t, v).value))
  }

  function AllBankGroups(t: Target, m: Machine, base: seq<int>, ranks: seq<int>, splits: seq<int>): (r: Result<Machine>)
    requires ValidTarget(t) && Sized(t, m) && |base| == t.config.size
    ensures r.Ok? ==> Sized(t, r.value)
    ensures r.Err? ==> r.error != BroadcastMissing
    decreases |ranks|
  {
    if |ranks| == 0 then Ok(m)
    else
      var next :- AllBankGroup(t, m, RankAddress(t, base, ranks[0]), splits);
      AllBankGroups(t, next, base, ranks[1..], splits)
  }

  function SingleBankRanks(t: Target, m: Machine, base: seq<int>, ranks: seq<int>): (r: Result<Machine>)
    requires ValidTarget(t) && Sized(t, m) && |base| == t.config.size
    ensures r.Ok? ==> Sized(t, r.value)
    ensures r.Err? ==> r.error != BroadcastMissing
    decreases |ranks|
  {
    if |ranks| == 0 then Ok(m)
    else
      var next :- ToSingleBank(t, m, RankAddress(t, base, ranks[0]));
      SingleBankRanks(t, next, base, ranks[1..])
  }

  function CompactFields(c: Config, s: Semantic): Interleave {
    var dependencies, rows := Max(1, s.dependencyCount), Max(1, s.rowCount);
    Interleave(
      s.bankSequence, dependencies, rows, s.rowStart, s.columnStart,
      Rem(s.resolvedRow - s.rowStart, rows), Rem(s.resolvedColumn - s.columnStart, dependencies),
      c.depth, 0,
      if c.positions.Some? && c.counts.Some? then Some((c.positions.value, c.counts.value)) else None,
      c.bankLevel, c.rowLevel, c.columnLevel)
  }

  /** Requests the serial path gives bank position `i`: its round-robin share. */
  function Share(total: int, banks: nat, i: int): int
    requires banks > 0
  {
    Quot(total, banks) + (if i < Rem(total, banks) then 1 else 0)
  }

  /** A bank position of the serial form: its address, if it has one, and its share. */
  datatype Turn = Turn(address: Result<seq<int>>, share: int)

  predicate ProperTurn(turn: Turn, size: int) {
    if turn.address.Ok? then |turn.address.value| == size else turn.address.error != BroadcastMissing
  }

  function SerialTurns(c: Config, s: Semantic): (turns: seq<Turn>)
    requires |s.bankSequence| > 0
    ensures |turns| == |s.bankSequence|
    ensures forall i :: 0 <= i < |turns| ==> ProperTurn(turns[i], c.size)
  {
    seq(|s.bankSequence|, i => Turn(PimAddress(c, s, i), Share(RequestCount(s), |s.bankSequence|, i)))
  }

  function SerialBanks(t: Target, m: Machine, turns: seq<Turn>): (r: Result<Machine>)
    requires ValidTarget(t) && Sized(t, m)
    requires forall i :: 0 <= i < |turns| ==> ProperTurn(turns[i], t.config.size)
    ensures r.Ok? ==> Sized(t, r.value)
    ensures r.Err? ==> r.error != BroadcastMissing
    decreases |turns|
  {
    if |turns| == 0 then Ok(m)
    else if turns[0].share == 0 then SerialBanks(t, m, turns[1..])
    else
      assert ProperTurn(turns[0], t.config.size);
      var v :- turns[0].address;
      var single :- ToSingleBank(t, m, v);
      SerialBanks(t, AppendSplits(single, OpMac, v, Splits(turns[0].share, MAX_REPEAT)), turns[1..])
  }

  function LowerPerBank(t: Target, m: Machine, s: Semantic, base: seq<int>, ranks: seq<int>): (r: Result<Machine>)
    requires ValidTarget(t) && Sized(t, m) && |base| == t.config.size && |s.bankSequence| > 0
    ensures r.Ok? ==> Sized(t, r.value)
    ensures r.Err? ==> r.error != BroadcastMissing
  {
    var single :- SingleBankRanks(t, m, base, ranks);
    var begun := if |single.records| == 0 then Append(single, OpSB, base, 1, None, None) else single;
    if t.config.interleaveBanks && |s.bankSequence| > 1 then
      Ok(AppendCompact(begun, base, Splits(RequestCount(s), t.config.maxRepeatPerRecord), CompactFields(t.config, s)))
    else SerialBanks(t, begun, SerialTurns(t.config, s))
  }

  predicate TakesAllBankPath(c: Config, s: Semantic) {
    c.interleaveBanks && |s.bankSequence| > 1 && UsesAllBankMac(c.macMode, s.kind)
  }

  function LowerCompute(t: Target, m: Machine, s: Semantic, base: seq<int>): (r: Result<Machine>)
    requires ValidTarget(t) && Sized(t, m) && |base| == t.config.size
    requires |s.bankSequence| > 0 && BanksFit(t.config)
    ensures r.Ok? ==> Sized(t, r.value)
    ensures r.Err? ==> r.error != BroadcastMissing
  {
    var ranks :- TargetRanks(t, base, s.bankSequence);
    if TakesAllBankPath(t.config, s) then
      AllBankGroups(t, m, base, ranks, Splits(AllBankIssues(s), t.config.maxRepeatPerRecord))
    else LowerPerBank(t, m, s, base, ranks)
  }

  // ----- all-bank loads and all-bank computes

  function LoadRanks(t: Target, m: Machine, base: seq<int>, rank: int, splits: seq<int>): (r: Result<Machine>)
    requires ValidTarget(t) && Sized(t, m) && |base| == t.config.size && 0 <= rank
    ensures r.Ok? ==> Sized(t, r.value)
    ensures r.Err? ==> r.error != BroadcastMissing
    decreases t.rankCount - rank
  {
    if rank >= t.rankCount then Ok(m)
    else
      var v := RankAddress(t, base, rank);
      var hab :- ToHostAllBank(t, m, v);
      var loaded := AppendSplits(hab, OpBcast, v, splits);
      LoadRanks(t, loaded.(ready := loaded.ready[rank := true]), base, rank + 1, splits)
  }

  function LowerLoad(t: Target, m: Machine, s: Semantic, base: seq<int>): (r: Result<Machine>)
    requires ValidTarget(t) && Sized(t, m) && |base| == t.config.size
    ensures r.Ok? ==> Sized(t, r.value)
    ensures r.Err? ==> r.error != BroadcastMissing
  {
    if s.kind == PIMDataMove && s.movement.kind == AccountingOnlyMove then Ok(m)
    else if s.kind == PIMDataMove && s.movement.kind != BroadcastLoad then Err(UnsupportedMovement)
    else LoadRanks(t, m, base, 0, Splits(RequestCount(s), MAX_REPEAT))
  }

  /** `range(rank_count)`. */
  function AllRanks(t: Target): (ranks: seq<int>)
    requires t.rankCount >= 1
    ensures |ranks| == t.rankCount
  {
    seq(t.rankCount, i => i)
  }

  /** Requests in turn, each on every rank. */
  function ComputeRequests(t: Target, m: Machine, addresses: seq<Result<seq<int>>>): (r: Result<Machine>)
    requires ValidTarget(t) && Sized(t, m)
    requires forall i :: 0 <= i < |addresses| && addresses[i].Ok? ==> |addresses[i].value| == t.config.size
    requires forall i :: 0 <= i < |addresses| && addresses[i].Err? ==> addresses[i].error != BroadcastMissing
    ensures r.Ok? ==> Sized(t, r.value)
    ensures r.Err? ==> r.error != BroadcastMissing
    decreases |addresses|
  {
    if |addresses| == 0 then Ok(m)
    else
      var v :- addresses[0];
      var next :- AllBankGroups(t, m, v, AllRanks(t), [1]);
      ComputeRequests(t, next, addresses[1..])
  }

  /** Address of every request of a record; requests of a repeat use the same ones. */
  function RequestAddresses(c: Config, s: Semantic): (addresses: seq<Result<seq<int>>>)
    requires s.numRequests > 0
    ensures forall i :: 0 <= i < |addresses| && addresses[i].Ok? ==> |addresses[i].value| == c.size
    ensures forall i :: 0 <= i < |addresses| && addresses[i].Err? ==> addresses[i].error != BroadcastMissing
    ensures |addresses| == Max(0, RequestCount(s))
  {
    seq(Max(0, RequestCount(s)), i => PimAddress(c, s, Rem(i, s.numRequests)))
  }

  // ----- one record, all records

  function LowerRecord(t: Target, m: Machine, s: Semantic): (r: Result<Machine>)
    requires ValidTarget(t) && Sized(t, m)
    ensures r.Ok? ==> Sized(t, r.value)
    ensures r.Err? ==> r.error != BroadcastMissing
  {
    if s.kind == OtherKind || s.accountingOnly then Ok(m)
    else if HostKind(s.kind) then LowerHost(t, m, s)
    else if s.kind == PIMDataMove && s.movement.isWeight then
      if t.config.materializeWeights then LowerWeights(t, m, s) else Ok(m)
    else if s.numRequests <= 0 then Err(BadArgument)
    else
      var base :- PimAddress(t.config, s, 0);
      if s.repeat <= 0 then Err(BadArgument)
      else if PerBankKind(s.kind) then LowerCompute(t, m, s, base)
      else if AllBankLoadKind(s.kind) then LowerLoad(t, m, s, base)
      else ComputeRequests(t, m, RequestAddresses(t.config, s))
  }

  function LowerFrom(t: Target, m: Machine, semantics: seq<Semantic>): (r: Result<Machine>)
    requires ValidTarget(t) && Sized(t, m)
    ensures r.Ok? ==> Sized(t, r.value)
    ensures r.Err? ==> r.error != BroadcastMissing
    decreases |semantics|
  {
    if |semantics| == 0 then Ok(m)
    else
      var next :- LowerRecord(t, m, semantics[0]);
      LowerFrom(t, next, semantics[1..])
  }

  /** The whole call, up to the final `validate_sequence`. */
  function Lower(config: Config, semantics: seq<Semantic>): (r: Result<seq<Concrete>>)
    requires config.maxRepeatPerRecord > 0
    ensures r.Err? ==> r.error != BroadcastMissing
  {
    var t :- Resolve(config);
    var m :- LowerFrom(t, Start(t), semantics);
    Ok(m.records)
  }
}
