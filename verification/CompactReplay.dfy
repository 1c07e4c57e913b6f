/** Which records a compact PIM_MAC replays as the generator computes them.  A compact
    record carries neither the burst length nor the bank order of its semantic record:
    the frontend dwells `interleave_depth` requests on a bank and numbers banks in
    interleave order, whatever the record says. */
module CompactReplay {
  import opened Addressing
  import opened BankOrders
  import opened Division
  import opened FlatBank
  import opened HostStream
  import opened Lowering
  import opened MacReplay
  import opened MixedRadix
  import opened ModeSafety
  import opened Results
  import opened Trace

  function Sizes(t: Target): seq<int>
    requires t.config.layout.Some?
  {
    t.config.layout.value.levelSizes
  }

  /** The configuration lets compact records through: the compact branch is reachable,
      and the layout passes the checks of `validate_record` that no record can change. */
  predicate CompactPossible(t: Target) {
    var c := t.config;
    && ValidTarget(t) && c.layout.Some? && CompactChecked(t) && c.size > 0 && LevelsFit(c) && BanksFit(c)
    && c.interleaveBanks && c.macMode != AllBank && c.rowLevel != c.columnLevel
  }

  /** Banks, rows and columns of a compact record exist. */
  predicate FieldsFit(t: Target, s: Semantic)
    requires t.config.layout.Some? && t.config.counts.Some?
    requires 0 <= t.config.rowLevel < |Sizes(t)| && 0 <= t.config.columnLevel < |Sizes(t)|
  {
    var c := t.config;
    && |s.bankSequence| > 0
    && (forall i :: 0 <= i < |s.bankSequence| ==> 0 <= s.bankSequence[i] < Product(c.counts.value))
    && 0 <= s.rowStart && s.rowStart + Max(1, s.rowCount) <= Sizes(t)[c.rowLevel]
    && 0 <= s.columnStart && s.columnStart + Max(1, s.dependencyCount) <= Sizes(t)[c.columnLevel]
  }

  /** The record is lowered to a compact record, and `validate_record` takes its
      fields. */
  predicate AcceptsCompact(t: Target, s: Semantic) {
    var c := t.config;
    && ValidTarget(t) && c.layout.Some? && TakesCompactPath(c, s) && CompactChecked(t)
    && LowerRecord(t, Start(t), s).Ok? && PimAddress(c, s, 0).Ok?
    && InRange(PimAddress(c, s, 0).value, Sizes(t)) && FieldsFit(t, s)
  }

  lemma AcceptedIsPossible(config: Config, s: Semantic)
    requires config.maxRepeatPerRecord > 0 && Resolve(config).Ok? && AcceptsCompact(Resolve(config).value, s)
    ensures CompactPossible(Resolve(config).value)
  {
    var c := Resolve(config).value.config;
    var names := c.layout.value.levelNames;
    assert names[c.rowLevel] == "Row" && names[c.columnLevel] == "Column";
    assert "Row"[0] != "Column"[0];
    PimAddressSize(c, s);
  }

  lemma PimAddressSize(c: Config, s: Semantic)
    requires PimAddress(c, s, 0).Ok?
    ensures c.size > 0 && LevelsFit(c) && BanksFit(c) && |PimAddress(c, s, 0).value| == c.size
  {
  }

  /** The coordinates the generator computes for every request of a record. */
  function Requests(c: Config, s: Semantic): seq<seq<int>> {
    seq(Max(0, RequestCount(s)), k => PositionAddress(c, s, k))
  }

  /** Whatever was lowered before, replaying the record issues its own requests. */
  ghost predicate IssuesOwnRequests(t: Target, s: Semantic)
    requires ValidTarget(t)
  {
    forall m :: Sized(t, m) && LowerRecord(t, m, s).Ok? ==>
      MacTrace(LowerRecord(t, m, s).value.records) == MacTrace(m.records) + Requests(t.config, s)
  }

  ghost predicate AlwaysOwnRequests(t: Target, burst: int, controllerOrder: bool)
    requires ValidTarget(t)
  {
    forall s :: AcceptsCompact(t, s) && s.burstLength == burst && s.controllerOrder == controllerOrder
      ==> IssuesOwnRequests(t, s)
  }

  // ----- the condition

  /** `v` with the coordinates of bank `flat` written into it. */
  function PlacedInto(t: Target, flat: int, v: seq<int>, controllerOrder: bool): seq<int>
    requires CompactPossible(t) && |v| == t.config.size
  {
    var positions := t.config.positions.value;
    Place(flat, v, positions, t.config.counts.value, BankOrder(positions, controllerOrder))
  }

  function Placed(t: Target, flat: int, controllerOrder: bool): seq<int>
    requires CompactPossible(t)
  {
    PlacedInto(t, flat, Zeros(t.config.size), controllerOrder)
  }

  /** Both bank orders give every bank the same coordinates. */
  predicate BanksPlacedAlike(t: Target)
    requires CompactPossible(t)
  {
    forall flat :: 0 <= flat < Product(t.config.counts.value) ==> Placed(t, flat, true) == Placed(t, flat, false)
  }

  /** One bank, one row, one column: every request has the same coordinates. */
  predicate SingleCell(t: Target)
    requires CompactPossible(t)
  {
    && Product(t.config.counts.value) == 1
    && Sizes(t)[t.config.rowLevel] == 1 && Sizes(t)[t.config.columnLevel] == 1
  }

  predicate DwellAgrees(t: Target, burst: int)
    requires CompactPossible(t)
  {
    Max(1, burst) == t.config.depth || SingleCell(t)
  }

  // ----- when the condition holds

  lemma SameBank(t: Target, s: Semantic, k: int)
    requires CompactPossible(t) && FieldsFit(t, s) && DwellAgrees(t, s.burstLength)
    ensures FlatBankOf(AtDepth(s, t.config.depth), k) == FlatBankOf(s, k)
    ensures 0 <= FlatBankOf(s, k) < Product(t.config.counts.value)
  {
  }

  lemma OneCellCoordinates(c: Config, s: Semantic, k: int)
    requires c.size > 0 && LevelsFit(c) && s.rowStart == 0 && s.columnStart == 0
    requires Max(1, s.rowCount) == 1 && Max(1, s.dependencyCount) == 1
    ensures RowColumn(c, s, k) == Zeros(c.size)
  {
  }

  lemma SameDwellCoordinates(c: Config, s: Semantic, k: int)
    requires c.size > 0 && LevelsFit(c) && c.depth >= 1 && Max(1, s.burstLength) == c.depth
    ensures RowColumn(c, AtDepth(s, c.depth), k) == RowColumn(c, s, k)
  {
  }

  lemma SameCoordinates(t: Target, s: Semantic, k: int)
    requires CompactPossible(t) && FieldsFit(t, s) && DwellAgrees(t, s.burstLength)
    ensures RowColumn(t.config, AtDepth(s, t.config.depth), k) == RowColumn(t.config, s, k)
  {
    if Max(1, s.burstLength) == t.config.depth {
      SameDwellCoordinates(t.config, s, k);
    } else {
      OneCellCoordinates(t.config, s, k);
      OneCellCoordinates(t.config, AtDepth(s, t.config.depth), k);
    }
  }

  lemma AnyOrderPlaces(t: Target, s: Semantic, flat: int, v: seq<int>)
    requires CompactPossible(t) && |v| == t.config.size && 0 <= flat < Product(t.config.counts.value)
    requires forall p :: p in t.config.positions.value ==> v[p] == 0
    requires s.controllerOrder ==> BanksPlacedAlike(t)
    ensures PlacedInto(t, flat, v, s.controllerOrder) == PlacedInto(t, flat, v, false)
  {
    if s.controllerOrder {
      assert Placed(t, flat, true) == Placed(t, flat, false);
      PlacedAlikeAnywhere(t, flat, v);
    }
  }

  lemma PlacedAlikeAnywhere(t: Target, flat: int, v: seq<int>)
    requires CompactPossible(t) && |v| == t.config.size && Placed(t, flat, true) == Placed(t, flat, false)
    requires forall p :: p in t.config.positions.value ==> v[p] == 0
    ensures PlacedInto(t, flat, v, true) == PlacedInto(t, flat, v, false)
  {
    var positions, counts := t.config.positions.value, t.config.counts.value;
    forall p | 0 <= p < |v|
      ensures Place(flat, v, positions, counts, BankOrder(positions, true))[p]
           == Place(flat, v, positions, counts, BankOrder(positions, false))[p]
    {
      if p in positions {
        PlacePointwise(flat, v, Zeros(|v|), positions, counts, BankOrder(positions, true), p);
        PlacePointwise(flat, v, Zeros(|v|), positions, counts, BankOrder(positions, false), p);
      } else {
        PlacedOffBanks(flat, v, positions, counts, true, p);
        PlacedOffBanks(flat, v, positions, counts, false, p);
      }
    }
  }

  lemma SameRequest(t: Target, s: Semantic, k: int)
    requires CompactPossible(t) && FieldsFit(t, s) && PerBankKind(s.kind) && DwellAgrees(t, s.burstLength)
    requires s.controllerOrder ==> BanksPlacedAlike(t)
    ensures PimAddress(t.config, s, k).Ok?
    ensures PimAddress(t.config, AtDepth(s, t.config.depth), k) == PimAddress(t.config, s, k)
  {
    SameBank(t, s, k);
    SameCoordinates(t, s, k);
    AnyOrderPlaces(t, s, FlatBankOf(s, k), RowColumn(t.config, s, k));
  }

  lemma IssuesAreOwn(t: Target, s: Semantic, issues: seq<seq<int>>)
    requires CompactPossible(t) && FieldsFit(t, s) && PerBankKind(s.kind) && DwellAgrees(t, s.burstLength)
    requires s.controllerOrder ==> BanksPlacedAlike(t)
    requires |issues| == s.numRequests * s.repeat && AreRequests(t.config, AtDepth(s, t.config.depth), issues)
    ensures issues == Requests(t.config, s)
  {
    forall k | 0 <= k < |issues|
      ensures issues[k] == PositionAddress(t.config, s, k)
    {
      SameRequest(t, s, k);
    }
  }

  lemma AgreementIssuesOwnRequests(t: Target, s: Semantic)
    requires CompactPossible(t) && AcceptsCompact(t, s) && DwellAgrees(t, s.burstLength)
    requires s.controllerOrder ==> BanksPlacedAlike(t)
    ensures IssuesOwnRequests(t, s)
  {
    forall m | Sized(t, m) && LowerRecord(t, m, s).Ok?
      ensures MacTrace(LowerRecord(t, m, s).value.records) == MacTrace(m.records) + Requests(t.config, s)
    {
      var issues := CompactRecordReplaysItsRequests(t, m, s);
      IssuesAreOwn(t, s, issues);
    }
  }

  // ----- when it does not

  /** A compute record that uses the given banks, rows and columns from zero on. */
  function Probe(banks: seq<int>, columns: int, rows: int, burst: int, controllerOrder: bool, requests: int): Semantic {
    Semantic(PIMCompute, false, AddressPolicy(None, None, None), 1, requests, banks, burst, columns, 0, rows, 0, 0, 0,
             controllerOrder, Movement(false, BroadcastLoad, 0, 64, true, 0, 0, 0, None, ""))
  }

  predicate IsProbe(s: Semantic) {
    s == Probe(s.bankSequence, s.dependencyCount, s.rowCount, s.burstLength, s.controllerOrder, s.numRequests)
  }

  predicate ProbeFits(t: Target, banks: seq<int>, columns: int, rows: int)
    requires CompactPossible(t)
  {
    && |banks| > 1 && (forall i :: 0 <= i < |banks| ==> 0 <= banks[i] < Product(t.config.counts.value))
    && 1 <= columns <= Sizes(t)[t.config.columnLevel] && 1 <= rows <= Sizes(t)[t.config.rowLevel]
  }

  /** Decomposition stays inside the levels. */
  lemma PlacedInRange(t: Target, flat: int, controllerOrder: bool)
    requires CompactPossible(t)
    ensures InRange(Placed(t, flat, controllerOrder), Sizes(t))
  {
    var c := t.config;
    var positions, counts, order := c.positions.value, c.counts.value, BankOrder(c.positions.value, controllerOrder);
    BankOrderDistinct(positions, controllerOrder);
    PlaceWritesDigits(flat, Zeros(c.size), positions, counts, order);
    var r := Placed(t, flat, controllerOrder);
    forall p | 0 <= p < |r|
      ensures 0 <= r[p] < Sizes(t)[p]
    {
      if j :| 0 <= j < |order| && positions[order[j]] == p {
        assert Permuted(counts, order)[j] == counts[order[j]] == Sizes(t)[p];
      }
    }
  }

  lemma FirstProbeRequest(t: Target, s: Semantic)
    requires CompactPossible(t) && IsProbe(s) && ProbeFits(t, s.bankSequence, s.dependencyCount, s.rowCount)
    ensures PimAddress(t.config, s, 0) == Ok(Placed(t, s.bankSequence[0], s.controllerOrder))
  {
    var c := t.config;
    FirstBank(s);
    QuotSmall(0, |s.bankSequence|);
    QuotSmall(0, Max(1, s.burstLength));
    QuotSmall(0, s.dependencyCount);
    QuotSmall(0, s.rowCount);
    assert RowColumn(c, s, 0) == Zeros(c.size);
  }

  /** The device has the bank. */
  predicate BankExists(c: Config, flat: int) {
    flat >= 0 && (c.positions.Some? && c.counts.Some? ==> flat < Product(c.counts.value))
  }

  lemma {:induction false} RanksInRange(t: Target, base: seq<int>, banks: seq<int>)
    requires ValidTarget(t) && |base| == t.config.size && BanksFit(t.config) && RankId(t, base).Ok?
    requires t.config.layout.Some? ==> CountsOfLevels(t)
    requires forall i :: 0 <= i < |banks| ==> BankExists(t.config, banks[i])
    ensures TargetRanks(t, base, banks).Ok?
    ensures forall r :: r in TargetRanks(t, base, banks).value ==> 0 <= r < t.rankCount
  {
    if |banks| > 0 {
      var n := |banks| - 1;
      RanksInRange(t, base, banks[..n]);
      RankInRange(t, base, banks[n]);
      InsertRankMembers(TargetRank(t, base, banks[n]).value, TargetRanks(t, base, banks[..n]).value);
    }
  }

  lemma RankInRange(t: Target, base: seq<int>, flat: int)
    requires ValidTarget(t) && |base| == t.config.size && BanksFit(t.config) && RankId(t, base).Ok?
    requires (t.config.layout.Some? ==> CountsOfLevels(t)) && BankExists(t.config, flat)
    ensures TargetRank(t, base, flat).Ok? && 0 <= TargetRank(t, base, flat).value < t.rankCount
  {
    if t.rankLevel.Some? {
      var c, rank := t.config, t.rankLevel.value;
      var k := IndexOf(c.positions.value, rank);
      if k.Some? {
        assert c.counts.value[k.value] == Sizes(t)[rank] == t.rankCount;
      }
    }
  }

  lemma {:induction false} RanksReturn(t: Target, m: Machine, base: seq<int>, ranks: seq<int>)
    requires ValidTarget(t) && Sized(t, m) && |base| == t.config.size
    requires forall r :: r in ranks ==> 0 <= r < t.rankCount
    ensures SingleBankRanks(t, m, base, ranks).Ok?
    decreases |ranks|
  {
    if |ranks| > 0 {
      assert ranks[0] in ranks && forall r :: r in ranks[1..] ==> r in ranks;
      RankOfRankAddress(t, base, ranks[0]);
      RanksReturn(t, ToSingleBank(t, m, RankAddress(t, base, ranks[0])).value, base, ranks[1..]);
    }
  }

  /** A compact record whose ranks exist is lowered. */
  lemma CompactLowers(t: Target, s: Semantic, base: seq<int>)
    requires CompactPossible(t) && TakesCompactPath(t.config, s) && s.repeat >= 1 && s.numRequests >= 1
    requires PimAddress(t.config, s, 0) == Ok(base) && InRange(base, Sizes(t)) && FieldsFit(t, s)
    ensures LowerRecord(t, Start(t), s).Ok?
  {
    RanksInRange(t, base, s.bankSequence);
    var ranks := TargetRanks(t, base, s.bankSequence).value;
    RanksReturn(t, Start(t), base, ranks);
    assert LowerCompute(t, Start(t), s, base) == LowerPerBank(t, Start(t), s, base, ranks);
    assert LowerRecord(t, Start(t), s) == LowerCompute(t, Start(t), s, base);
  }

  lemma ProbeAccepted(t: Target, banks: seq<int>, columns: int, rows: int, burst: int, controllerOrder: bool, requests: int)
    requires CompactPossible(t) && ProbeFits(t, banks, columns, rows) && requests >= 1
    ensures AcceptsCompact(t, Probe(banks, columns, rows, burst, controllerOrder, requests))
  {
    var s := Probe(banks, columns, rows, burst, controllerOrder, requests);
    FirstProbeRequest(t, s);
    PlacedInRange(t, banks[0], controllerOrder);
    CompactLowers(t, s, Placed(t, banks[0], controllerOrder));
  }

  lemma DifferentRequest(t: Target, s: Semantic, k: nat)
    requires CompactPossible(t) && AcceptsCompact(t, s) && k < RequestCount(s)
    requires PimAddress(t.config, s, k).Ok? && PimAddress(t.config, AtDepth(s, t.config.depth), k).Ok?
    requires PimAddress(t.config, s, k) != PimAddress(t.config, AtDepth(s, t.config.depth), k)
    ensures !IssuesOwnRequests(t, s)
  {
    var issues := CompactRecordReplaysItsRequests(t, Start(t), s);
    assert MacTrace(Start(t).records) == [];
    assert issues[k] == PimAddress(t.config, AtDepth(s, t.config.depth), k).value != Requests(t.config, s)[k];
    assert MacTrace(Start(t).records) + issues == issues;
    assert MacTrace(Start(t).records) + Requests(t.config, s) == Requests(t.config, s);
  }

  /** Two orders that differ on a bank: its compact record goes elsewhere. */
  lemma OrderWitness(t: Target, burst: int, flat: int) returns (s: Semantic)
    requires CompactPossible(t) && 0 <= flat < Product(t.config.counts.value)
    requires Placed(t, flat, true) != Placed(t, flat, false)
    ensures AcceptsCompact(t, s) && s.burstLength == burst && s.controllerOrder && !IssuesOwnRequests(t, s)
  {
    s := Probe([flat, flat], 1, 1, burst, true, 1);
    ProbeAccepted(t, [flat, flat], 1, 1, burst, true, 1);
    FirstProbeRequest(t, s);
    FirstProbeRequest(t, Probe([flat, flat], 1, 1, t.config.depth, false, 1));
    assert AtDepth(s, t.config.depth) == Probe([flat, flat], 1, 1, t.config.depth, false, 1);
    DifferentRequest(t, s, 0);
  }

  lemma DigitsOfZero(t: Target, controllerOrder: bool)
    requires CompactPossible(t)
    ensures Placed(t, 0, controllerOrder) == Zeros(t.config.size)
  {
    var positions, counts := t.config.positions.value, t.config.counts.value;
    PlaceZero(Zeros(t.config.size), positions, counts, BankOrder(positions, controllerOrder));
  }

  /** Banks 0 and 1 never share coordinates, whatever the orders. */
  lemma BankOneIsElsewhere(t: Target, controllerOrder: bool)
    requires CompactPossible(t) && Product(t.config.counts.value) >= 2
    ensures Placed(t, 1, controllerOrder) != Zeros(t.config.size)
  {
    var positions, counts, zeros := t.config.positions.value, t.config.counts.value, Zeros(t.config.size);
    var order := BankOrder(positions, controllerOrder);
    FlatBankRecovered(0, zeros, positions, counts, controllerOrder);
    FlatBankRecovered(1, zeros, positions, counts, controllerOrder);
    DigitsOfZero(t, controllerOrder);
  }

  /** The turns of requests `small` and `2 * small`: one divisor has moved on, the
      other has not. */
  lemma FirstTurn(small: int, large: int)
    requires 1 <= small < large
    ensures Quot(small, small) == 1 && Quot(small, large) == 0
    ensures Quot(2 * small, small) == 2 && 0 <= Quot(2 * small, large) <= 1
  {
    QuotUnique(small, small, 1, 0);
    QuotSmall(small, large);
    QuotUnique(2 * small, small, 2, 0);
    QuotBelow(2 * small, 2, large);
  }

  /** Request `k` of a probe, at the dwell of its burst length. */
  lemma ProbeRequest(t: Target, s: Semantic, k: int)
    requires CompactPossible(t) && IsProbe(s) && ProbeFits(t, s.bankSequence, s.dependencyCount, s.rowCount)
    ensures FieldsFit(t, s)
    ensures var c := t.config;
      PimAddress(c, s, k) == Ok(PlacedInto(t, FlatBankOf(s, k), RowColumn(c, s, k), s.controllerOrder))
  {
    assert 0 <= FlatBankOf(s, k) < Product(t.config.counts.value);
  }

  /** A probe whose request `k` the frontend's dwell turns into another one. */
  lemma ProbeDiffers(t: Target, s: Semantic, k: nat)
    requires CompactPossible(t) && IsProbe(s) && ProbeFits(t, s.bankSequence, s.dependencyCount, s.rowCount)
    requires k < s.numRequests
    requires var d := AtDepth(s, t.config.depth);
      PlacedInto(t, FlatBankOf(s, k), RowColumn(t.config, s, k), s.controllerOrder)
      != PlacedInto(t, FlatBankOf(d, k), RowColumn(t.config, d, k), false)
    ensures AcceptsCompact(t, s) && !IssuesOwnRequests(t, s)
  {
    ProbeAccepted(t, s.bankSequence, s.dependencyCount, s.rowCount, s.burstLength, s.controllerOrder, s.numRequests);
    ProbeRequest(t, s, k);
    ProbeRequest(t, AtDepth(s, t.config.depth), k);
    DifferentRequest(t, s, k);
  }

  /** Where request `small` of a probe on banks 0 and 1 goes. */
  lemma PairTurn(t: Target, s: Semantic, small: int, large: int)
    requires CompactPossible(t) && Product(t.config.counts.value) >= 2
    requires IsProbe(s) && s.bankSequence == [0, 1] && s.dependencyCount == 1 && s.rowCount == 1
    requires 1 <= small < large && (Max(1, s.burstLength) == small || Max(1, s.burstLength) == large)
    ensures var v := PlacedInto(t, FlatBankOf(s, small), RowColumn(t.config, s, small), s.controllerOrder);
      v == Zeros(t.config.size) <==> Max(1, s.burstLength) == large
  {
    FirstTurn(small, large);
    QuotSmall(0, 2);
    QuotSmall(1, 2);
    OneCellCoordinates(t.config, s, small);
    BankOneIsElsewhere(t, s.controllerOrder);
    DigitsOfZero(t, s.controllerOrder);
  }

  /** Banks 0 and 1 in turn: one divisor has moved on to bank 1, the other has not. */
  lemma BankWitness(t: Target, burst: int, controllerOrder: bool) returns (s: Semantic)
    requires CompactPossible(t) && Max(1, burst) != t.config.depth && Product(t.config.counts.value) >= 2
    ensures AcceptsCompact(t, s) && s.burstLength == burst && s.controllerOrder == controllerOrder
    ensures !IssuesOwnRequests(t, s)
    ensures s == Probe([0, 1], 1, 1, burst, controllerOrder, Min(Max(1, burst), t.config.depth) + 1)
  {
    var depth := t.config.depth;
    var small, large := Min(Max(1, burst), depth), Max(Max(1, burst), depth);
    s := Probe([0, 1], 1, 1, burst, controllerOrder, small + 1);
    PairTurn(t, s, small, large);
    PairTurn(t, AtDepth(s, depth), small, large);
    ProbeDiffers(t, s, small);
  }

  lemma OffBanksDiffer(t: Target, a: int, b: int, v: seq<int>, w: seq<int>, controllerOrder: bool, p: nat)
    requires CompactPossible(t) && |v| == |w| == t.config.size
    requires p < t.config.size && p !in t.config.positions.value && v[p] != w[p]
    ensures PlacedInto(t, a, v, controllerOrder) != PlacedInto(t, b, w, false)
  {
    PlacedOffBanks(a, v, t.config.positions.value, t.config.counts.value, controllerOrder, p);
    PlacedOffBanks(b, w, t.config.positions.value, t.config.counts.value, false, p);
  }

  /** The turn of request `2 * min(burst, depth)` of a two-bank probe. */
  lemma SecondCycle(small: int, large: int)
    requires 1 <= small < large
    ensures Quot(Quot(2 * small, small), 2) == 1 && Quot(Quot(2 * small, large), 2) == 0
  {
    FirstTurn(small, large);
    QuotUnique(2, 2, 1, 0);
    QuotSmall(Quot(2 * small, large), 2);
  }

  lemma ColumnWitness(t: Target, burst: int, controllerOrder: bool) returns (s: Semantic)
    requires CompactPossible(t) && Max(1, burst) != t.config.depth && Sizes(t)[t.config.columnLevel] >= 2
    ensures AcceptsCompact(t, s) && s.burstLength == burst && s.controllerOrder == controllerOrder
    ensures !IssuesOwnRequests(t, s)
  {
    var c := t.config;
    var small, large := Min(Max(1, burst), c.depth), Max(Max(1, burst), c.depth);
    s := Probe([0, 0], 2, 1, burst, controllerOrder, 2 * small + 1);
    ProductPositive(c.counts.value);
    SecondCycle(small, large);
    QuotSmall(0, 2);
    QuotSmall(1, 2);
    var d := AtDepth(s, c.depth);
    OffBanksDiffer(t, FlatBankOf(s, 2 * small), FlatBankOf(d, 2 * small), RowColumn(c, s, 2 * small), RowColumn(c, d, 2 * small),
                   controllerOrder, c.columnLevel);
    ProbeDiffers(t, s, 2 * small);
  }

  lemma RowWitness(t: Target, burst: int, controllerOrder: bool) returns (s: Semantic)
    requires CompactPossible(t) && Max(1, burst) != t.config.depth && Sizes(t)[t.config.rowLevel] >= 2
    ensures AcceptsCompact(t, s) && s.burstLength == burst && s.controllerOrder == controllerOrder
    ensures !IssuesOwnRequests(t, s)
  {
    var c := t.config;
    var small, large := Min(Max(1, burst), c.depth), Max(Max(1, burst), c.depth);
    s := Probe([0, 0], 1, 2, burst, controllerOrder, 2 * small + 1);
    ProductPositive(c.counts.value);
    SecondCycle(small, large);
    QuotSmall(0, 2);
    QuotSmall(1, 2);
    QuotUnique(1, 1, 1, 0);
    QuotUnique(0, 1, 0, 0);
    var d := AtDepth(s, c.depth);
    OffBanksDiffer(t, FlatBankOf(s, 2 * small), FlatBankOf(d, 2 * small), RowColumn(c, s, 2 * small), RowColumn(c, d, 2 * small),
                   controllerOrder, c.rowLevel);
    ProbeDiffers(t, s, 2 * small);
  }

  lemma DwellWitness(t: Target, burst: int, controllerOrder: bool) returns (s: Semantic)
    requires CompactPossible(t) && !DwellAgrees(t, burst)
    ensures AcceptsCompact(t, s) && s.burstLength == burst && s.controllerOrder == controllerOrder
    ensures !IssuesOwnRequests(t, s)
  {
    ProductPositive(t.config.counts.value);
    if Product(t.config.counts.value) >= 2 {
      s := BankWitness(t, burst, controllerOrder);
    } else if Sizes(t)[t.config.columnLevel] >= 2 {
      s := ColumnWitness(t, burst, controllerOrder);
    } else {
      s := RowWitness(t, burst, controllerOrder);
    }
  }

  lemma AlikeExactly(t: Target)
    requires CompactPossible(t)
    ensures BanksPlacedAlike(t) <==> WideAscending(t.config.positions.value, t.config.counts.value)
  {
    var c := t.config;
    PlacedAlikeExactly(c.size, c.positions.value, c.counts.value);
    assert forall flat, o :: Placed(t, flat, o) == BankOrders.Placed(flat, c.size, c.positions.value, c.counts.value, o);
  }

  /** For a burst length and a bank order, every accepted compact record issues its own
      requests if and only if the frontend's dwell is the burst length (or there is only
      one cell to address) and, when the record asks for the controller's bank order, the
      bank levels with more than one value stand in hierarchy order. */
  lemma OwnRequestsExactly(t: Target, burst: int, controllerOrder: bool)
    requires CompactPossible(t)
    ensures AlwaysOwnRequests(t, burst, controllerOrder)
       <==> DwellAgrees(t, burst) && (controllerOrder ==> WideAscending(t.config.positions.value, t.config.counts.value))
  {
    AlikeExactly(t);
    if DwellAgrees(t, burst) && (controllerOrder ==> BanksPlacedAlike(t)) {
      forall s | AcceptsCompact(t, s) && s.burstLength == burst && s.controllerOrder == controllerOrder
        ensures IssuesOwnRequests(t, s)
      {
        AgreementIssuesOwnRequests(t, s);
      }
    } else {
      var s;
      if !DwellAgrees(t, burst) {
        s := DwellWitness(t, burst, controllerOrder);
      } else {
        var flat :| 0 <= flat < Product(t.config.counts.value) && Placed(t, flat, true) != Placed(t, flat, false);
        s := OrderWitness(t, burst, flat);
      }
      assert !AlwaysOwnRequests(t, burst, controllerOrder);
    }
  }

  // ----- one device

  const DEVICE_LAYOUT := Layout(
    ["Channel", "Rank", "BankGroup", "Bank", "Row", "Column"], [1, 1, 4, 4, 32_768, 1_024], 16, 32, 1_073_741_824,
    [1, 3, 2], [1, 4, 4])

  /** A one-rank LPDDR5 device with interleaving on and the default dwell of 4. */
  const DEVICE := Target(
    Config(6, 3, Some([1, 3, 2]), Some([1, 4, 4]), 4, 5, false, true, 4, MAX_REPEAT, PerKind, Some(DEVICE_LAYOUT), StrictBytes),
    Some(1), 1)

  lemma IndexIs<T>(s: seq<T>, x: T, i: nat)
    requires i < |s| && s[i] == x && forall j :: 0 <= j < i ==> s[j] != x
    ensures IndexOf(s, x) == Some(i)
  {
    assert x in s;
    var found := IndexOf(s, x).value;
    forall j | 0 <= j < found
      ensures s[j] != x
    {
      assert s[..found][j] == s[j];
    }
  }

  lemma DeviceLevels(names: seq<string>)
    requires names == ["Channel", "Rank", "BankGroup", "Bank", "Row", "Column"]
    ensures IndexOf(names, "Rank") == Some(1) && IndexOf(names, "Bank") == Some(3)
    ensures IndexOf(names, "Row") == Some(4) && IndexOf(names, "Column") == Some(5)
  {
    var lengths := seq(6, i requires 0 <= i < 6 => |names[i]|);
    assert lengths == [7, 4, 9, 4, 3, 6];
    assert "Rank"[0] == 'R' && "Bank"[0] == 'B';
    IndexIs(names, "Rank", 1);
    IndexIs(names, "Bank", 3);
    IndexIs(names, "Row", 4);
    IndexIs(names, "Column", 5);
  }

  /** A configuration that already names the levels of its layout resolves to itself. */
  lemma ResolvesToItself(c: Config, l: Layout, rank: nat)
    requires c.layout == Some(l) && c.policy != UnknownPolicy && c.macMode != UnknownMacMode
    requires c.positions.Some? && c.counts.Some? && |l.levelNames| == c.size
    requires IndexOf(l.levelNames, "Rank") == Some(rank) && rank < |l.levelSizes| && l.levelSizes[rank] > 0
    requires c.rowLevel >= 0 && c.columnLevel >= 0 && c.bankLevel >= 0
    requires IndexOf(l.levelNames, "Row") == Some(c.rowLevel) && IndexOf(l.levelNames, "Column") == Some(c.columnLevel)
    requires IndexOf(l.levelNames, "Bank") == Some(c.bankLevel)
    ensures Resolve(c) == Ok(Target(c, Some(rank), l.levelSizes[rank]))
  {
  }

  lemma DeviceResolves()
    ensures Resolve(DEVICE.config) == Ok(DEVICE)
  {
    DeviceLevels(DEVICE_LAYOUT.levelNames);
    ResolvesToItself(DEVICE.config, DEVICE_LAYOUT, 1);
  }

  lemma DeviceIsPossible()
    ensures CompactPossible(DEVICE) && Product(DEVICE.config.counts.value) == 16
  {
    assert [1, 4, 4][..2] == [1, 4] && [1, 4][..1] == [1] && [1][..0] == [];
    assert Product([]) == 1 && Product([1]) == 1 && Product([1, 4]) == 4;
  }

  /** The decode defaults ask for bursts of 8 in controller order.  Five requests on
      banks 0 and 1 are enough: the frontend sends the fifth to bank 1. */
  lemma DecodeDefaultsExample()
    ensures Resolve(DEVICE.config) == Ok(DEVICE) && CompactPossible(DEVICE)
    ensures var s := Probe([0, 1], 1, 1, 8, true, 5); AcceptsCompact(DEVICE, s) && !IssuesOwnRequests(DEVICE, s)
  {
    DeviceResolves();
    DeviceIsPossible();
    var s := BankWitness(DEVICE, 8, true);
  }

  /** In controller order the level that stands last in the hierarchy is the last
      digit. */
  lemma LastInHierarchy(positions: seq<int>, k: nat)
    requires Distinct(positions) && k < |positions|
    requires forall i :: 0 <= i < |positions| ==> positions[i] <= positions[k]
    ensures var order := BankOrder(positions, true);
      |order| == |positions| && Distinct(order) && order[|order| - 1] == k
  {
    var order := BankOrder(positions, true);
    BankOrderDistinct(positions, true);
    assert Identity(|positions|)[k] == k;
    assert k in multiset(order);
    var j :| 0 <= j < |order| && order[j] == k;
  }

  /** Bank 1 goes to the level of the last digit. */
  lemma LastDigitOfOne(v: seq<int>, positions: seq<int>, counts: seq<int>, order: seq<nat>)
    requires BankMap(positions, counts, |v|) && IndicesOf(order, |positions|) && Distinct(order)
    requires |order| > 0 && counts[order[|order| - 1]] >= 2 && forall p :: 0 <= p < |v| ==> v[p] == 0
    ensures Place(1, v, positions, counts, order) == v[positions[order[|order| - 1]] := 1]
  {
    var n := |order| - 1;
    var k := order[n];
    QuotSmall(1, counts[k]);
    var w := v[positions[k] := 1];
    forall p | 0 <= p < |v|
      ensures Place(0, w, positions, counts, order[..n])[p] == w[p]
    {
      if p == positions[k] {
        PlaceWritesDigits(0, w, positions, counts, order[..n]);
        assert forall j :: 0 <= j < n ==> order[j] != k;
      } else {
        PlacePointwise(0, w, v, positions, counts, order[..n], p);
        PlaceZero(v, positions, counts, order[..n]);
      }
    }
  }

  lemma BankOneByLastLevel(t: Target, controllerOrder: bool, k: nat)
    requires CompactPossible(t) && k < |t.config.counts.value| && t.config.counts.value[k] >= 2
    requires var order := BankOrder(t.config.positions.value, controllerOrder);
      Distinct(order) && |order| > 0 && order[|order| - 1] == k
    ensures Placed(t, 1, controllerOrder) == Zeros(t.config.size)[t.config.positions.value[k] := 1]
  {
    var positions := t.config.positions.value;
    LastDigitOfOne(Zeros(t.config.size), positions, t.config.counts.value, BankOrder(positions, controllerOrder));
  }

  /** On the same device the controller's order alone moves bank 1: it is bank 1 of
      group 0 there, and bank 0 of group 1 in interleave order. */
  lemma BankOrderExample()
    ensures CompactPossible(DEVICE)
    ensures Placed(DEVICE, 1, true) == Zeros(6)[3 := 1] && Placed(DEVICE, 1, false) == Zeros(6)[2 := 1]
  {
    DeviceIsPossible();
    var positions := DEVICE.config.positions.value;
    LastInHierarchy(positions, 1);
    BankOneByLastLevel(DEVICE, true, 1);
    BankOrderDistinct(positions, false);
    BankOneByLastLevel(DEVICE, false, 2);
  }
}
