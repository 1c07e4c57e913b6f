/** Which records the serial form replays as the generator computes them.  A position
    repeats its first coordinates, so later rows, columns and bank turns are lost. */
module SerialReplay {
  import opened BankOrders
  import opened CompactReplay
  import opened Division
  import opened FlatBank
  import opened Lowering
  import opened MacReplay
  import opened MixedRadix
  import opened Results
  import opened Trace

  /** Levels that do not overlap, and bank counts as the layout has them. */
  predicate SerialPossible(t: Target) {
    var c := t.config;
    && ValidTarget(t) && c.size > 0 && LevelsFit(c) && BanksFit(c) && c.rowLevel != c.columnLevel
    && (c.positions.None? ==> c.bankLevel != c.rowLevel && c.bankLevel != c.columnLevel)
    && (c.layout.Some? ==> CountsOfLevels(t))
  }

  /** The checks of `validate_record` on the coordinates of a plain PIM_MAC. */
  predicate FitsLevels(t: Target, v: seq<int>) {
    if t.config.layout.Some? then InRange(v, t.config.layout.value.levelSizes) else forall p :: 0 <= p < |v| ==> v[p] >= 0
  }

  /** The record is lowered to the serial form, what it emits is accepted, and the banks
      it names exist. */
  predicate AcceptsSerial(t: Target, s: Semantic) {
    var c := t.config;
    && ValidTarget(t) && PerBankKind(s.kind) && !s.accountingOnly
    && !TakesCompactPath(c, s) && !TakesAllBankPath(c, s) && LowerRecord(t, Start(t), s).Ok?
    && |s.bankSequence| > 0 && (forall i :: 0 <= i < |s.bankSequence| ==> BankExists(c, s.bankSequence[i]))
    && forall i :: 0 <= i < |s.bankSequence| && Share(RequestCount(s), |s.bankSequence|, i) > 0 ==>
         FitsLevels(t, PositionAddress(c, s, i))
  }

  /** Whatever was lowered before, replaying the record issues each of its own requests
      once, in some order. */
  ghost predicate IssuesOwnOnce(t: Target, s: Semantic)
    requires ValidTarget(t)
  {
    forall m :: Sized(t, m) && LowerRecord(t, m, s).Ok? ==>
      multiset(MacTrace(LowerRecord(t, m, s).value.records)) == multiset(MacTrace(m.records)) + multiset(Requests(t.config, s))
  }

  /** What the records of a family share. */
  datatype Family = Family(span: nat, burst: int, total: int, columns: int, rows: int) {
    function Dwell(): int { Max(1, burst) }

    /** Every request has the same row and column. */
    predicate OneCell() { columns <= 1 && rows <= 1 }
  }

  predicate In(s: Semantic, f: Family) {
    && |s.bankSequence| == f.span && s.burstLength == f.burst && RequestCount(s) == f.total
    && s.dependencyCount == f.columns && s.rowCount == f.rows
  }

  /** The family has requests, and its records take the serial branch. */
  predicate SerialFamily(c: Config, f: Family) {
    f.span >= 1 && f.total >= 1 && (!c.interleaveBanks || f.span == 1)
  }

  ghost predicate AlwaysOwnOnce(t: Target, f: Family)
    requires ValidTarget(t)
  {
    forall s :: AcceptsSerial(t, s) && In(s, f) ==> IssuesOwnOnce(t, s)
  }

  predicate OneBank(c: Config)
    requires BanksFit(c)
  {
    c.positions.Some? && c.counts.Some? && Product(c.counts.value) == 1
  }

  /** The requests fit into the first turn of one bank or the first round of the banks;
      or there is one cell and no dwell to lose.  A single bank only loses cells. */
  predicate SerialAgrees(c: Config, f: Family)
    requires BanksFit(c)
  {
    if OneBank(c) then f.total <= f.span * f.Dwell() || f.OneCell()
    else f.total <= Max(f.span, f.Dwell()) || (f.OneCell() && (f.Dwell() == 1 || f.span == 1))
  }

  // ---- when it holds ----

  /** Requests of the same round of the banks have the same row and column. */
  lemma SameRound(c: Config, s: Semantic, k: int, i: int)
    requires c.size > 0 && LevelsFit(c) && PerBankKind(s.kind) && |s.bankSequence| > 0
    requires Quot(Quot(k, Max(1, s.burstLength)), |s.bankSequence|) == Quot(Quot(i, Max(1, s.burstLength)), |s.bankSequence|)
    ensures RowColumn(c, s, k) == RowColumn(c, s, i)
  {
  }

  lemma OneCellRound(c: Config, s: Semantic, k: int, i: int)
    requires c.size > 0 && LevelsFit(c) && s.dependencyCount <= 1 && s.rowCount <= 1
    ensures RowColumn(c, s, k) == RowColumn(c, s, i)
  {
    assert Max(1, s.dependencyCount) == 1 && Max(1, s.rowCount) == 1;
  }

  lemma SameAddress(c: Config, s: Semantic, k: int, i: int)
    requires c.size > 0 && LevelsFit(c) && PerBankKind(s.kind) && |s.bankSequence| > 0
    requires RowColumn(c, s, k) == RowColumn(c, s, i) && FlatBankOf(s, k) == FlatBankOf(s, i)
    ensures PimAddress(c, s, k) == PimAddress(c, s, i)
  {
  }

  /** Requests below one dwell are all the first request. */
  lemma FirstTurnAddress(c: Config, s: Semantic, k: int, i: int)
    requires c.size > 0 && LevelsFit(c) && PerBankKind(s.kind) && |s.bankSequence| > 0
    requires 0 <= i <= k < Max(1, s.burstLength)
    ensures PimAddress(c, s, k) == PimAddress(c, s, i)
  {
    QuotSmall(k, Max(1, s.burstLength));
    QuotSmall(i, Max(1, s.burstLength));
    SameRound(c, s, k, i);
    SameAddress(c, s, k, i);
  }

  /** Without a dwell request `k` takes bank `k` modulo the span. */
  lemma NoDwellBank(s: Semantic, k: nat)
    requires |s.bankSequence| > 0 && (Max(1, s.burstLength) == 1 || |s.bankSequence| == 1)
    ensures FlatBankOf(s, k) == FlatBankOf(s, Rem(k, |s.bankSequence|))
  {
    var i := Rem(k, |s.bankSequence|);
    if Max(1, s.burstLength) == 1 {
      QuotUnique(k, 1, k, 0);
      QuotUnique(i, 1, i, 0);
      QuotSmall(i, |s.bankSequence|);
    }
  }

  lemma OnlyBank(c: Config, s: Semantic, k: int)
    requires BanksFit(c) && OneBank(c) && |s.bankSequence| > 0
    requires forall i :: 0 <= i < |s.bankSequence| ==> BankExists(c, s.bankSequence[i])
    ensures FlatBankOf(s, k) == 0
  {
  }

  /** The first round of the banks. */
  lemma FirstRound(k: int, dwell: int, span: int)
    requires dwell >= 1 && span >= 1 && 0 <= k < span * dwell
    ensures Quot(Quot(k, dwell), span) == 0
  {
    QuotBelow(k, span, dwell);
    QuotSmall(Quot(k, dwell), span);
  }

  lemma RemBelow(k: nat, r: nat)
    requires r > 0
    ensures 0 <= Rem(k, r) <= k && (k < r ==> Rem(k, r) == k)
  {
    QuotRem(k, r);
    MulMonotone(0, Quot(k, r), r);
    if k < r {
      QuotSmall(k, r);
    }
  }

  /** What the lemmas below need of a record. */
  predicate Banked(c: Config, s: Semantic, f: Family) {
    && c.size > 0 && LevelsFit(c) && BanksFit(c) && PerBankKind(s.kind) && In(s, f) && f.span > 0
    && forall i :: 0 <= i < |s.bankSequence| ==> BankExists(c, s.bankSequence[i])
  }

  lemma OneBankPosition(c: Config, s: Semantic, f: Family, k: nat)
    requires Banked(c, s, f) && OneBank(c) && k < f.total && (f.total <= f.span * f.Dwell() || f.OneCell())
    ensures PimAddress(c, s, Rem(k, f.span)) == PimAddress(c, s, k)
  {
    var i := Rem(k, f.span);
    OnlyBank(c, s, k);
    OnlyBank(c, s, i);
    if f.OneCell() {
      OneCellRound(c, s, k, i);
    } else {
      RemBelow(k, f.span);
      FirstRound(k, f.Dwell(), f.span);
      FirstRound(i, f.Dwell(), f.span);
      SameRound(c, s, k, i);
    }
    SameAddress(c, s, k, i);
  }

  lemma ManyBanksPosition(c: Config, s: Semantic, f: Family, k: nat)
    requires Banked(c, s, f) && k < f.total
    requires f.total <= Max(f.span, f.Dwell()) || (f.OneCell() && (f.Dwell() == 1 || f.span == 1))
    ensures PimAddress(c, s, Rem(k, f.span)) == PimAddress(c, s, k)
  {
    RemBelow(k, f.span);
    var i := Rem(k, f.span);
    if k >= f.span {
      if f.total <= Max(f.span, f.Dwell()) {
        FirstTurnAddress(c, s, k, i);
      } else {
        NoDwellBank(s, k);
        OneCellRound(c, s, k, i);
        SameAddress(c, s, k, i);
      }
    }
  }

  lemma PositionIsRequest(c: Config, s: Semantic, f: Family, k: nat)
    requires Banked(c, s, f) && SerialAgrees(c, f) && k < f.total
    ensures PimAddress(c, s, Rem(k, f.span)) == PimAddress(c, s, k)
  {
    if OneBank(c) {
      OneBankPosition(c, s, f, k);
    } else {
      ManyBanksPosition(c, s, f, k);
    }
  }

  lemma AgreementIssuesOwnOnce(t: Target, s: Semantic, f: Family)
    requires SerialPossible(t) && AcceptsSerial(t, s) && In(s, f) && SerialAgrees(t.config, f)
    ensures IssuesOwnOnce(t, s)
  {
    forall m | Sized(t, m) && LowerRecord(t, m, s).Ok?
      ensures multiset(MacTrace(LowerRecord(t, m, s).value.records)) == multiset(MacTrace(m.records)) + multiset(Requests(t.config, s))
    {
      var issues := SerialRecordConservesRequests(t, m, s);
      RoundRobinIsOwn(t, s, f);
    }
  }

  lemma RoundRobinIsOwn(t: Target, s: Semantic, f: Family)
    requires SerialPossible(t) && AcceptsSerial(t, s) && In(s, f) && SerialAgrees(t.config, f) && f.total >= 0
    ensures RoundRobin(t.config, s, f.total) == Requests(t.config, s)
  {
    forall k | 0 <= k < f.total
      ensures RoundRobin(t.config, s, f.total)[k] == Requests(t.config, s)[k]
    {
      PositionIsRequest(t.config, s, f, k);
    }
  }

  // ---- when it does not ----

  /** A record of the family on the given banks, from row and column 0 on. */
  function SerialProbe(banks: seq<int>, f: Family): Semantic {
    Probe(banks, f.columns, f.rows, f.burst, false, f.total)
  }

  /** The coordinates of a request on bank `flat`. */
  function BankedAt(c: Config, flat: int, v: seq<int>): (r: seq<int>)
    requires c.size > 0 && LevelsFit(c) && BanksFit(c) && |v| == c.size
    ensures |r| == c.size
  {
    if c.positions.Some? then Place(flat, v, c.positions.value, c.counts.value, BankOrder(c.positions.value, false))
    else v[c.bankLevel := flat]
  }

  lemma RequestAddress(c: Config, s: Semantic, f: Family, k: nat)
    requires Banked(c, s, f) && !s.controllerOrder
    ensures PimAddress(c, s, k) == Ok(BankedAt(c, FlatBankOf(s, k), RowColumn(c, s, k)))
  {
    assert BankExists(c, FlatBankOf(s, k));
  }

  /** The coordinates of a request tell its bank. */
  lemma DistinctBanks(c: Config, a: int, b: int, v: seq<int>, w: seq<int>)
    requires c.size > 0 && LevelsFit(c) && BanksFit(c) && |v| == |w| == c.size
    requires BankExists(c, a) && BankExists(c, b) && a != b
    ensures BankedAt(c, a, v) != BankedAt(c, b, w)
  {
    if c.positions.Some? {
      FlatBankRecovered(a, v, c.positions.value, c.counts.value, false);
      FlatBankRecovered(b, w, c.positions.value, c.counts.value, false);
    } else {
      assert BankedAt(c, a, v)[c.bankLevel] == a && BankedAt(c, b, w)[c.bankLevel] == b;
    }
  }

  lemma RowColumnKept(t: Target, flat: int, v: seq<int>)
    requires SerialPossible(t) && |v| == t.config.size
    ensures var c, r := t.config, BankedAt(t.config, flat, v);
      r[c.rowLevel] == v[c.rowLevel] && r[c.columnLevel] == v[c.columnLevel]
  {
    var c := t.config;
    if c.positions.Some? {
      PlacedOffBanks(flat, v, c.positions.value, c.counts.value, false, c.rowLevel);
      PlacedOffBanks(flat, v, c.positions.value, c.counts.value, false, c.columnLevel);
    }
  }

  /** Bank coordinates exist, and the others stay. */
  lemma BankCoordinate(t: Target, flat: int, v: seq<int>, p: nat)
    requires SerialPossible(t) && |v| == t.config.size && p < |v| && BankExists(t.config, flat) && v[p] >= 0
    requires t.config.layout.Some? ==> v[p] < t.config.layout.value.levelSizes[p]
    ensures BankedAt(t.config, flat, v)[p] >= 0
    ensures t.config.layout.Some? ==> BankedAt(t.config, flat, v)[p] < t.config.layout.value.levelSizes[p]
  {
    var c := t.config;
    if c.positions.Some? {
      var positions, counts, order := c.positions.value, c.counts.value, BankOrder(c.positions.value, false);
      if p in positions {
        BankOrderDistinct(positions, false);
        PlaceWritesDigits(flat, v, positions, counts, order);
        var k :| 0 <= k < |positions| && positions[k] == p;
        assert order[k] == k && Permuted(counts, order)[k] == counts[k];
      } else {
        PlacedOffBanks(flat, v, positions, counts, false, p);
      }
    }
  }

  lemma BankFits(t: Target, flat: int)
    requires SerialPossible(t) && BankExists(t.config, flat)
    ensures FitsLevels(t, BankedAt(t.config, flat, Zeros(t.config.size)))
  {
    var v := Zeros(t.config.size);
    forall p: nat | p < |v|
      ensures BankedAt(t.config, flat, v)[p] >= 0
      ensures t.config.layout.Some? ==> BankedAt(t.config, flat, v)[p] < t.config.layout.value.levelSizes[p]
    {
      BankCoordinate(t, flat, v, p);
    }
  }

  lemma FittingRank(t: Target, v: seq<int>)
    requires ValidTarget(t) && |v| == t.config.size && FitsLevels(t, v)
    ensures RankId(t, v).Ok?
  {
  }

  predicate HasRank(t: Target, turn: Turn)
    requires ValidTarget(t)
  {
    turn.address.Ok? && |turn.address.value| == t.config.size && RankId(t, turn.address.value).Ok?
  }

  lemma {:induction false} SerialBanksLower(t: Target, m: Machine, turns: seq<Turn>)
    requires ValidTarget(t) && Sized(t, m) && forall i :: 0 <= i < |turns| ==> ProperTurn(turns[i], t.config.size)
    requires forall i :: 0 <= i < |turns| ==> HasRank(t, turns[i])
    ensures SerialBanks(t, m, turns).Ok?
    decreases |turns|
  {
    if |turns| > 0 {
      if turns[0].share == 0 {
        SerialBanksLower(t, m, turns[1..]);
      } else {
        var v := turns[0].address.value;
        var single := ToSingleBank(t, m, v).value;
        SerialBanksLower(t, AppendSplits(single, OpMac, v, Splits(turns[0].share, MAX_REPEAT)), turns[1..]);
      }
    }
  }

  /** The positions of a probe all lie in row 0 and column 0. */
  lemma ProbePosition(t: Target, s: Semantic, f: Family, i: nat)
    requires SerialPossible(t) && Banked(t.config, s, f) && s == SerialProbe(s.bankSequence, f) && i < f.span
    ensures PimAddress(t.config, s, i) == Ok(BankedAt(t.config, FlatBankOf(s, i), Zeros(t.config.size)))
    ensures FitsLevels(t, PositionAddress(t.config, s, i)) && RankId(t, PositionAddress(t.config, s, i)).Ok?
  {
    RequestAddress(t.config, s, f, i);
    MulMonotone(1, f.Dwell(), f.span);
    FirstRound(i, f.Dwell(), f.span);
    FirstCell(t.config, s, i);
    assert BankExists(t.config, FlatBankOf(s, i));
    BankFits(t, FlatBankOf(s, i));
    FittingRank(t, PositionAddress(t.config, s, i));
  }

  lemma FirstCell(c: Config, s: Semantic, k: int)
    requires c.size > 0 && LevelsFit(c) && PerBankKind(s.kind) && |s.bankSequence| > 0
    requires s.rowStart == 0 && s.columnStart == 0 && s.resolvedRow == 0 && s.resolvedColumn == 0
    requires Quot(Quot(k, Max(1, s.burstLength)), |s.bankSequence|) == 0
    ensures RowColumn(c, s, k) == Zeros(c.size)
  {
    QuotSmall(0, Max(1, s.dependencyCount));
    QuotSmall(0, Max(1, s.rowCount));
  }

  lemma ProbeLowers(t: Target, s: Semantic, f: Family)
    requires SerialPossible(t) && Banked(t.config, s, f) && s == SerialProbe(s.bankSequence, f) && f.total >= 1
    requires !t.config.interleaveBanks || f.span <= 1
    ensures LowerRecord(t, Start(t), s).Ok?
  {
    var c := t.config;
    ProbePosition(t, s, f, 0);
    var base := PimAddress(c, s, 0).value;
    RanksInRange(t, base, s.bankSequence);
    var ranks := TargetRanks(t, base, s.bankSequence).value;
    RanksReturn(t, Start(t), base, ranks);
    forall i: nat | i < f.span
      ensures HasRank(t, SerialTurns(c, s)[i])
    {
      ProbePosition(t, s, f, i);
    }
    SerialBanksLower(t, Begun(SingleBankRanks(t, Start(t), base, ranks).value, base), SerialTurns(c, s));
    assert LowerPerBank(t, Start(t), s, base, ranks).Ok?;
    assert LowerCompute(t, Start(t), s, base) == LowerPerBank(t, Start(t), s, base, ranks);
  }

  lemma ProbeAcceptedSerially(t: Target, s: Semantic, f: Family)
    requires SerialPossible(t) && Banked(t.config, s, f) && s == SerialProbe(s.bankSequence, f) && f.total >= 1
    requires !t.config.interleaveBanks || f.span <= 1
    ensures AcceptsSerial(t, s)
  {
    ProbeLowers(t, s, f);
    forall i: nat | i < f.span
      ensures FitsLevels(t, PositionAddress(t.config, s, i))
    {
      ProbePosition(t, s, f, i);
    }
  }

  // ---- telling the streams apart ----

  /** Wherever `a` has `v`, so has `b`, and in one more place. */
  lemma {:induction false} FewerOf<T>(a: seq<T>, b: seq<T>, v: T, k: nat)
    requires |a| == |b| && k < |a| && a[k] != v && b[k] == v
    requires forall i :: 0 <= i < |a| && a[i] == v ==> b[i] == v
    ensures multiset(a)[v] < multiset(b)[v]
    decreases |a|
  {
    var n := |a| - 1;
    assert a == a[..n] + [a[n]] && b == b[..n] + [b[n]];
    if k < n {
      FewerOf(a[..n], b[..n], v, k);
    } else {
      NoMoreOf(a[..n], b[..n], v);
    }
  }

  lemma {:induction false} NoMoreOf<T>(a: seq<T>, b: seq<T>, v: T)
    requires |a| == |b| && forall i :: 0 <= i < |a| && a[i] == v ==> b[i] == v
    ensures multiset(a)[v] <= multiset(b)[v]
    decreases |a|
  {
    if a != [] {
      var n := |a| - 1;
      assert a == a[..n] + [a[n]] && b == b[..n] + [b[n]];
      NoMoreOf(a[..n], b[..n], v);
    }
  }

  lemma DifferentStream(t: Target, s: Semantic, v: seq<int>)
    requires AcceptsSerial(t, s) && RequestCount(s) >= 0
    requires multiset(RoundRobin(t.config, s, RequestCount(s)))[v] != multiset(Requests(t.config, s))[v]
    ensures !IssuesOwnOnce(t, s)
  {
    var issues := SerialRecordConservesRequests(t, Start(t), s);
    assert MacTrace(Start(t).records) == [];
    assert [] + issues == issues;
  }

  /** What each position of a probe repeats. */
  function ProbeEntry(c: Config, s: Semantic, i: int): seq<int>
    requires c.size > 0 && LevelsFit(c) && BanksFit(c) && |s.bankSequence| > 0
  {
    BankedAt(c, FlatBankOf(s, i), Zeros(c.size))
  }

  lemma ProbeEntries(t: Target, s: Semantic, f: Family)
    requires SerialPossible(t) && Banked(t.config, s, f) && s == SerialProbe(s.bankSequence, f) && f.total >= 0
    ensures forall k :: 0 <= k < f.total ==> RoundRobin(t.config, s, f.total)[k] == ProbeEntry(t.config, s, Rem(k, f.span))
  {
    forall k | 0 <= k < f.total
      ensures RoundRobin(t.config, s, f.total)[k] == ProbeEntry(t.config, s, Rem(k, f.span))
    {
      ProbePosition(t, s, f, Rem(k, f.span));
    }
  }

  lemma Absent<T>(a: seq<T>, b: seq<T>, v: T, k: nat)
    requires k < |b| && b[k] == v && forall i :: 0 <= i < |a| ==> a[i] != v
    ensures multiset(a)[v] < multiset(b)[v]
  {
    assert v !in a && v in b;
    assert v !in multiset(a) && v in multiset(b);
  }

  /** The second round of the banks moves the column or the row. */
  lemma SecondRoundMoves(c: Config, s: Semantic, f: Family, k: int)
    requires c.size > 0 && LevelsFit(c) && c.rowLevel != c.columnLevel && In(s, f) && f.span > 0 && !f.OneCell()
    requires s == SerialProbe(s.bankSequence, f) && k == f.span * f.Dwell()
    ensures var v := RowColumn(c, s, k); v[c.rowLevel] != 0 || v[c.columnLevel] != 0
  {
    assert k == f.span * f.Dwell() + 0;
    QuotUnique(k, f.Dwell(), f.span, 0);
    QuotUnique(f.span, f.span, 1, 0);
    if f.columns > 1 {
      QuotSmall(1, f.columns);
    } else {
      QuotUnique(1, 1, 1, 0);
      QuotSmall(1, f.rows);
    }
  }

  lemma BankZeroExists(c: Config)
    requires c.size > 0 && BanksFit(c)
    ensures BankExists(c, 0) && (!OneBank(c) ==> BankExists(c, 1))
  {
    if c.positions.Some? {
      ProductPositive(c.counts.value);
    }
  }

  /** On one bank: the request that starts the second round is nowhere in the stream. */
  lemma CellWitness(t: Target, f: Family) returns (s: Semantic)
    requires SerialPossible(t) && SerialFamily(t.config, f) && !f.OneCell() && f.total > f.span * f.Dwell()
    ensures AcceptsSerial(t, s) && In(s, f) && !IssuesOwnOnce(t, s)
  {
    var c, k := t.config, f.span * f.Dwell();
    s := SerialProbe(seq(f.span, _ => 0), f);
    BankZeroExists(c);
    MulPositive(f.span, f.Dwell());
    ProbeAcceptedSerially(t, s, f);
    RequestAddress(c, s, f, k);
    var v := BankedAt(c, 0, RowColumn(c, s, k));
    SecondRoundMoves(c, s, f, k);
    RowColumnKept(t, 0, RowColumn(c, s, k));
    RowColumnKept(t, 0, Zeros(c.size));
    assert BankedAt(c, 0, Zeros(c.size)) != v;
    ProbeEntries(t, s, f);
    Absent(RoundRobin(c, s, f.total), Requests(c, s), v, k);
    DifferentStream(t, s, v);
  }

  // ---- too many requests on the first bank ----

  function FirstThenSecond(span: nat): (banks: seq<int>)
    ensures |banks| == span
  {
    seq(span, i => if i == 0 then 0 else 1)
  }

  /** A position repeats the first bank whenever the request itself goes to it. */
  lemma PositionOfFirstBank(k: nat, dwell: nat, span: nat)
    requires dwell >= 1 && span >= 1 && Rem(Quot(k, dwell), span) == 0
    ensures Rem(Quot(Rem(k, span), dwell), span) == 0
  {
    var i := Rem(k, span);
    RemBelow(k, span);
    if span > dwell {
      var q, turns := Quot(Quot(k, dwell), span), Quot(k, dwell);
      QuotRem(k, dwell);
      QuotRem(turns, span);
      assert k == q * dwell * span + Rem(k, dwell);
      QuotUnique(k, span, q * dwell, Rem(k, dwell));
    }
    QuotSmall(i, dwell);
    QuotSmall(0, span);
  }

  /** Here the request goes to a later bank, its position to the first. */
  lemma FirstBankTooOften(k: nat, dwell: nat, span: nat)
    requires dwell >= 2 && span >= 2 && k == Max(span, dwell)
    ensures Rem(Quot(k, dwell), span) != 0 && Rem(Quot(Rem(k, span), dwell), span) == 0
  {
    MulMonotone(2, span, dwell);
    MulMonotone(2, dwell, span);
    QuotBelow(k, span, dwell);
    QuotRem(k, dwell);
    QuotSmall(Quot(k, dwell), span);
    RemBelow(k, span);
    if k == span {
      QuotUnique(k, span, 1, 0);
    }
    QuotSmall(Rem(k, span), dwell);
    QuotSmall(0, span);
  }

  lemma FirstBankEntry(t: Target, s: Semantic, f: Family, k: nat)
    requires SerialPossible(t) && Banked(t.config, s, f) && s == SerialProbe(FirstThenSecond(f.span), f) && k < f.total
    ensures var first := BankedAt(t.config, 0, Zeros(t.config.size));
      && (PositionAddress(t.config, s, k) == first ==> Rem(Quot(k, f.Dwell()), f.span) == 0)
      && (Rem(Quot(Rem(k, f.span), f.Dwell()), f.span) == 0 ==> PositionAddress(t.config, s, Rem(k, f.span)) == first)
  {
    var c := t.config;
    RequestAddress(c, s, f, k);
    ProbePosition(t, s, f, Rem(k, f.span));
    if Rem(Quot(k, f.Dwell()), f.span) != 0 {
      assert FlatBankOf(s, k) == 1;
      BankZeroExists(c);
      DistinctBanks(c, 1, 0, RowColumn(c, s, k), Zeros(c.size));
    }
  }

  lemma FirstBankProbe(t: Target, f: Family) returns (s: Semantic)
    requires SerialPossible(t) && SerialFamily(t.config, f) && !OneBank(t.config)
    ensures s == SerialProbe(FirstThenSecond(f.span), f) && s == SerialProbe(s.bankSequence, f)
    ensures Banked(t.config, s, f) && AcceptsSerial(t, s)
  {
    s := SerialProbe(FirstThenSecond(f.span), f);
    BankZeroExists(t.config);
    ProbeAcceptedSerially(t, s, f);
  }

  /** The stream repeats the first bank's first cell more often than the requests. */
  lemma FirstBankCount(t: Target, s: Semantic, f: Family, first: seq<int>)
    requires SerialPossible(t) && Banked(t.config, s, f) && s == SerialProbe(FirstThenSecond(f.span), f)
    requires f.Dwell() >= 2 && f.span >= 2 && f.total > Max(f.span, f.Dwell())
    requires first == BankedAt(t.config, 0, Zeros(t.config.size))
    ensures multiset(Requests(t.config, s))[first] < multiset(RoundRobin(t.config, s, f.total))[first]
  {
    var own, stream := Requests(t.config, s), RoundRobin(t.config, s, f.total);
    forall k: nat | k < f.total
      ensures own[k] == first ==> stream[k] == first
    {
      FirstBankEntry(t, s, f, k);
      if own[k] == first {
        PositionOfFirstBank(k, f.Dwell(), f.span);
      }
    }
    var k := Max(f.span, f.Dwell());
    FirstBankTooOften(k, f.Dwell(), f.span);
    FirstBankEntry(t, s, f, k);
    FewerOf(own, stream, first, k);
  }

  lemma CountWitness(t: Target, f: Family) returns (s: Semantic)
    requires SerialPossible(t) && SerialFamily(t.config, f) && !OneBank(t.config)
    requires f.Dwell() >= 2 && f.span >= 2 && f.total > Max(f.span, f.Dwell())
    ensures AcceptsSerial(t, s) && In(s, f) && !IssuesOwnOnce(t, s)
  {
    s := FirstBankProbe(t, f);
    var first := BankedAt(t.config, 0, Zeros(t.config.size));
    FirstBankCount(t, s, f, first);
    DifferentStream(t, s, first);
  }

  /** The serial form replays every record of a family with its own requests, each once
      and in some order, exactly when no position has to move: the requests stay in the
      first turn of a bank or the first round of the banks, or every request of a
      position is the same. */
  lemma OwnSeriallyExactly(t: Target, f: Family)
    requires SerialPossible(t) && SerialFamily(t.config, f)
    ensures AlwaysOwnOnce(t, f) <==> SerialAgrees(t.config, f)
  {
    if SerialAgrees(t.config, f) {
      forall s | AcceptsSerial(t, s) && In(s, f)
        ensures IssuesOwnOnce(t, s)
      {
        AgreementIssuesOwnOnce(t, s, f);
      }
    } else if OneBank(t.config) || f.Dwell() == 1 || f.span == 1 {
      var s := CellWitness(t, f);
    } else {
      var s := CountWitness(t, f);
    }
  }

  // ---- positions and banks ----

  /** Every position is addressed at its own entry of the bank sequence. */
  predicate HitsOwnBanks(s: Semantic) {
    forall i :: 0 <= i < |s.bankSequence| ==> FlatBankOf(s, i) == s.bankSequence[i]
  }

  ghost predicate AlwaysHitsOwnBanks(t: Target, span: nat, burst: int) {
    forall s :: AcceptsSerial(t, s) && |s.bankSequence| == span && s.burstLength == burst ==> HitsOwnBanks(s)
  }

  lemma PositionIsBank(c: Config, s: Semantic, i: nat)
    requires BanksFit(c) && i < |s.bankSequence| && forall j :: 0 <= j < |s.bankSequence| ==> BankExists(c, s.bankSequence[j])
    requires s.burstLength <= 1 || |s.bankSequence| == 1 || OneBank(c)
    ensures FlatBankOf(s, i) == s.bankSequence[i]
  {
    if s.burstLength <= 1 {
      QuotUnique(i, 1, i, 0);
      QuotSmall(i, |s.bankSequence|);
    } else if OneBank(c) {
      OnlyBank(c, s, i);
    }
  }

  /** The address rule divides a position by the dwell: in every accepted record with
      `span` banks position `i` is bank `i` of the sequence exactly when the burst length
      is at most one, or there is one position, or one bank. */
  lemma PositionsAreBanksExactly(t: Target, span: nat, burst: int)
    requires SerialPossible(t) && span >= 1 && (!t.config.interleaveBanks || span == 1)
    ensures AlwaysHitsOwnBanks(t, span, burst) <==> burst <= 1 || span == 1 || OneBank(t.config)
  {
    if burst <= 1 || span == 1 || OneBank(t.config) {
      forall s, i: nat | AcceptsSerial(t, s) && |s.bankSequence| == span && s.burstLength == burst && i < span
        ensures FlatBankOf(s, i) == s.bankSequence[i]
      {
        PositionIsBank(t.config, s, i);
      }
    } else {
      var f := Family(span, burst, 1, 1, 1);
      var s := SerialProbe(FirstThenSecond(span), f);
      BankZeroExists(t.config);
      ProbeAcceptedSerially(t, s, f);
      QuotSmall(1, burst);
      QuotSmall(0, span);
      assert FlatBankOf(s, 1) == 0 != s.bankSequence[1];
    }
  }

  // ---- one device ----

  function Serially(t: Target): Target {
    t.(config := t.config.(interleaveBanks := false))
  }

  lemma CompactIsSerialPossible(t: Target)
    requires CompactPossible(t)
    ensures SerialPossible(Serially(t))
  {
  }

  lemma SeriallyResolves(t: Target)
    requires Resolve(t.config) == Ok(t)
    ensures Resolve(Serially(t).config) == Ok(Serially(t))
  {
  }

  lemma BurstsBreak(t: Target)
    requires CompactPossible(t) && Product(t.config.counts.value) > 1
    ensures SerialPossible(Serially(t)) && !AlwaysOwnOnce(Serially(t), Family(2, 8, 16, 1, 1))
  {
    CompactIsSerialPossible(t);
    OwnSeriallyExactly(Serially(t), Family(2, 8, 16, 1, 1));
  }

  /** The decode defaults' bursts of 8 on two banks of the device with interleaving off:
      sixteen requests are eight for each bank, but both positions repeat the first. */
  lemma SerialBurstsExample()
    ensures Resolve(Serially(DEVICE).config) == Ok(Serially(DEVICE)) && SerialPossible(Serially(DEVICE))
    ensures !AlwaysOwnOnce(Serially(DEVICE), Family(2, 8, 16, 1, 1))
  {
    DeviceResolves();
    SeriallyResolves(DEVICE);
    DeviceIsPossible();
    BurstsBreak(DEVICE);
  }
}
