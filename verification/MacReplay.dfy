/** Per-bank MACs at replay time.  A compact record, cut into any number of chunks, makes
    the frontend issue the record's requests one by one; the serial form issues the same
    banks the same number of times. */
module MacReplay {
  import opened Division
  import opened FlatBank
  import opened Lowering
  import opened Results
  import opened Sequences
  import opened Trace
  import opened Work

  lemma MacTraceAppend(records: seq<Concrete>, rec: Concrete)
    ensures MacTrace(records + [rec]) == MacTrace(records) + MacIssues(rec)
  {
    FlatMapAppend(MacIssues, records, rec);
  }

  lemma ToSingleBankIssuesNothing(t: Target, m: Machine, v: seq<int>)
    requires ValidTarget(t) && Sized(t, m) && |v| == t.config.size && ToSingleBank(t, m, v).Ok?
    ensures MacTrace(ToSingleBank(t, m, v).value.records) == MacTrace(m.records)
  {
    var r := ToSingleBank(t, m, v).value;
    if r.records != m.records {
      MacTraceAppend(m.records, r.records[|m.records|]);
    }
  }

  lemma {:induction false} SingleBankRanksIssueNothing(t: Target, m: Machine, base: seq<int>, ranks: seq<int>)
    requires ValidTarget(t) && Sized(t, m) && |base| == t.config.size && SingleBankRanks(t, m, base, ranks).Ok?
    ensures MacTrace(SingleBankRanks(t, m, base, ranks).value.records) == MacTrace(m.records)
    decreases |ranks|
  {
    if |ranks| > 0 {
      var v := RankAddress(t, base, ranks[0]);
      ToSingleBankIssuesNothing(t, m, v);
      SingleBankRanksIssueNothing(t, ToSingleBank(t, m, v).value, base, ranks[1..]);
    }
  }

  // ----- compact records

  /** Issue `k` of the uncut compact stream. */
  function IssueAt(base: seq<int>, fields: Interleave, k: int): seq<int>
    requires Playable(fields, |base|)
  {
    CompactAddress(Concrete(0, OpMac, 1, base, None, Some(fields)), k)
  }

  /** Issues `start` up to `start + n` of the uncut stream. */
  function CompactRun(base: seq<int>, fields: Interleave, start: int, n: nat): (run: seq<seq<int>>)
    requires Playable(fields, |base|)
    ensures |run| == n
  {
    seq(n, i => IssueAt(base, fields, start + i))
  }

  /** A chunk's own start index does what its offset in the run does. */
  lemma ChunkIssue(rec: Concrete, fields: Interleave, start: int, i: int)
    requires fields.startIndex == 0 && Playable(fields, |rec.addrVec|) && rec.interleave == Some(fields.(startIndex := start))
    ensures CompactAddress(rec, i) == IssueAt(rec.addrVec, fields, start + i)
  {
    assert start + i == 0 + (start + i);
  }

  lemma CompactChunkIssues(rec: Concrete, fields: Interleave, start: int)
    requires fields.startIndex == 0 && Playable(fields, |rec.addrVec|)
    requires rec.opcode == OpMac && rec.repeat >= 1 && rec.interleave == Some(fields.(startIndex := start))
    ensures MacIssues(rec) == CompactRun(rec.addrVec, fields, start, rec.repeat)
  {
    var issues, run := MacIssues(rec), CompactRun(rec.addrVec, fields, start, rec.repeat);
    assert |issues| == rec.repeat;
    forall i: nat | i < rec.repeat
      ensures issues[i] == run[i]
    {
      assert issues[i] == CompactAddress(rec, i);
      ChunkIssue(rec, fields, start, i);
    }
  }

  lemma CompactRunJoin(before: seq<seq<int>>, base: seq<int>, fields: Interleave, start: int, a: nat, b: nat)
    requires Playable(fields, |base|)
    ensures before + CompactRun(base, fields, start, a) + CompactRun(base, fields, start + a, b)
         == before + CompactRun(base, fields, start, a + b)
  {
    ConcatAssociative(before, CompactRun(base, fields, start, a), CompactRun(base, fields, start + a, b));
    assert CompactRun(base, fields, start, a) + CompactRun(base, fields, start + a, b)
        == CompactRun(base, fields, start, a + b);
  }

  lemma {:induction false} SumNonNegative(s: seq<int>)
    requires forall i :: 0 <= i < |s| ==> s[i] >= 1
    ensures Sum(s) >= 0
  {
    if |s| > 0 {
      SumNonNegative(s[1..]);
    }
  }

  /** The chunks of a compact stream continue one another, whatever the split. */
  lemma {:induction false} AppendCompactIssues(
    m: Machine, base: seq<int>, splits: seq<int>, fields: Interleave, start: int)
    requires fields.startIndex == 0 && Playable(fields, |base|)
    requires forall i :: 0 <= i < |splits| ==> splits[i] >= 1
    ensures Sum(splits) >= 0
    ensures MacTrace(AppendCompact(m, base, splits, fields.(startIndex := start)).records)
         == MacTrace(m.records) + CompactRun(base, fields, start, Sum(splits))
    decreases |splits|
  {
    SumNonNegative(splits);
    if |splits| > 0 {
      var here := fields.(startIndex := start);
      var rec := Concrete(|m.records|, OpMac, splits[0], base, None, Some(here));
      var next := Append(m, OpMac, base, splits[0], None, Some(here));
      MacTraceAppend(m.records, rec);
      CompactChunkIssues(rec, fields, start);
      AppendCompactIssues(next, base, splits[1..], fields, start + splits[0]);
      SumNonNegative(splits[1..]);
      CompactRunJoin(MacTrace(m.records), base, fields, start, splits[0], Sum(splits[1..]));
    }
  }

  /** The request stream the semantic record describes, at a given bank dwell, with
      banks numbered in interleave order (the only order the frontend knows). */
  function AtDepth(s: Semantic, depth: int): Semantic {
    s.(burstLength := depth, controllerOrder := false)
  }

  lemma CompactFieldsPlayable(c: Config, s: Semantic, base: seq<int>)
    requires PimAddress(c, s, 0) == Ok(base) && PerBankKind(s.kind) && c.depth >= 1
    ensures Playable(CompactFields(c, s), |base|)
  {
  }

  /** Two vectors that agree off the bank levels decompose to the same vector. */
  lemma PlaceOverwrites(flat: int, v: seq<int>, w: seq<int>, positions: seq<int>, counts: seq<int>)
    requires |v| == |w| && BankMap(positions, counts, |v|)
    requires forall p :: 0 <= p < |v| && p !in positions ==> v[p] == w[p]
    ensures Place(flat, v, positions, counts, Identity(|positions|))
         == Place(flat, w, positions, counts, Identity(|positions|))
  {
    var order := Identity(|positions|);
    BankOrderDistinct(positions, false);
    PlaceWritesDigits(flat, v, positions, counts, order);
    PlaceWritesDigits(flat, w, positions, counts, order);
    var a, b := Place(flat, v, positions, counts, order), Place(flat, w, positions, counts, order);
    assert forall j :: 0 <= j < |order| ==> order[j] == j;
    forall p | 0 <= p < |v|
      ensures a[p] == b[p]
    {
      if p in positions {
        var j :| 0 <= j < |positions| && positions[j] == p;
        assert positions[order[j]] == p;
      } else {
        assert forall j :: 0 <= j < |order| ==> positions[order[j]] != p;
      }
    }
  }

  /** Off the bank levels the base vector is zero but for row and column. */
  lemma BaseOffBanks(c: Config, s: Semantic, base: seq<int>, p: int)
    requires PimAddress(c, s, 0) == Ok(base) && PerBankKind(s.kind)
    requires 0 <= p < c.size && p != c.rowLevel && p != c.columnLevel
    requires if c.positions.Some? then p !in c.positions.value else p != c.bankLevel
    ensures base[p] == 0
  {
    if c.positions.Some? {
      PlacedOffBanks(FlatBankOf(s, 0), RowColumn(c, s, 0), c.positions.value, c.counts.value, s.controllerOrder, p);
    }
  }

  lemma SameRowColumn(c: Config, s: Semantic, k: int)
    requires c.depth >= 1 && PerBankKind(s.kind) && |s.bankSequence| > 0
    ensures var fields, d := CompactFields(c, s), AtDepth(s, c.depth);
            var group := Quot(k, c.depth);
            var cycle := Quot(group, |s.bankSequence|);
            && FlatBankOf(d, k) == s.bankSequence[Rem(group, |s.bankSequence|)]
            && Rem(fields.columnOffset + cycle, fields.dependencyCount)
            == Rem((s.resolvedColumn - s.columnStart) + cycle, Max(1, s.dependencyCount))
            && Rem(fields.rowOffset + Quot(cycle, fields.dependencyCount), fields.rowCount)
            == Rem((s.resolvedRow - s.rowStart) + Quot(cycle, Max(1, s.dependencyCount)), Max(1, s.rowCount))
  {
    var cycle := Quot(Quot(k, c.depth), |s.bankSequence|);
    RemSum(s.resolvedColumn - s.columnStart, cycle, Max(1, s.dependencyCount));
    RemSum(s.resolvedRow - s.rowStart, Quot(cycle, Max(1, s.dependencyCount)), Max(1, s.rowCount));
  }

  /** The frontend's arithmetic and the generator's agree on every request. */
  lemma IssueIsRequest(c: Config, s: Semantic, base: seq<int>, k: int)
    requires PimAddress(c, s, 0) == Ok(base) && PerBankKind(s.kind)
    requires c.depth >= 1 && c.rowLevel != c.columnLevel
    requires c.positions.None? ==> c.bankLevel != c.rowLevel && c.bankLevel != c.columnLevel
    requires PimAddress(c, AtDepth(s, c.depth), k).Ok?
    ensures Playable(CompactFields(c, s), |base|)
    ensures IssueAt(base, CompactFields(c, s), k) == PimAddress(c, AtDepth(s, c.depth), k).value
  {
    var fields, d := CompactFields(c, s), AtDepth(s, c.depth);
    CompactFieldsPlayable(c, s, base);
    SameRowColumn(c, s, k);
    var flat := FlatBankOf(d, k);
    var v := RowColumn(c, d, k);
    var w := base[c.columnLevel := v[c.columnLevel]][c.rowLevel := v[c.rowLevel]];
    forall p | 0 <= p < c.size && (if c.positions.Some? then p !in c.positions.value else p != c.bankLevel)
      ensures v[p] == w[p]
    {
      if p != c.rowLevel && p != c.columnLevel {
        BaseOffBanks(c, s, base, p);
      }
    }
    if c.positions.Some? {
      PlaceOverwrites(flat, v, w, c.positions.value, c.counts.value);
    } else {
      assert v[c.bankLevel := flat] == w[c.bankLevel := flat];
    }
  }

  /** The interleaved branch is taken. */
  predicate TakesCompactPath(c: Config, s: Semantic) {
    && PerBankKind(s.kind) && !s.accountingOnly
    && c.interleaveBanks && |s.bankSequence| > 1 && !UsesAllBankMac(c.macMode, s.kind)
  }

  lemma CompactRecordIssuesRun(t: Target, m: Machine, s: Semantic)
    requires ValidTarget(t) && Sized(t, m) && TakesCompactPath(t.config, s)
    requires t.config.depth >= 1 && LowerRecord(t, m, s).Ok?
    ensures RequestCount(s) >= 1 && PimAddress(t.config, s, 0).Ok?
    ensures Playable(CompactFields(t.config, s), t.config.size)
    ensures MacTrace(LowerRecord(t, m, s).value.records)
         == MacTrace(m.records)
            + CompactRun(PimAddress(t.config, s, 0).value, CompactFields(t.config, s), 0, RequestCount(s))
  {
    var c := t.config;
    var base := PimAddress(c, s, 0).value;
    var ranks := TargetRanks(t, base, s.bankSequence).value;
    MulPositive(s.numRequests, s.repeat);
    var begun := Begun(SingleBankRanks(t, m, base, ranks).value, base);
    BegunIssuesNothing(t, m, base, ranks);
    CompactFieldsPlayable(c, s, base);
    SplitsSum(RequestCount(s), c.maxRepeatPerRecord);
    AppendCompactIssues(begun, base, Splits(RequestCount(s), c.maxRepeatPerRecord), CompactFields(c, s), 0);
  }

  /** `issues` are the requests `0, 1, ...` of the record, wherever the address rule
      accepts the request. */
  ghost predicate AreRequests(c: Config, d: Semantic, issues: seq<seq<int>>) {
    forall k :: 0 <= k < |issues| && PimAddress(c, d, k).Ok? ==> issues[k] == PimAddress(c, d, k).value
  }

  lemma CompactRunAreRequests(c: Config, s: Semantic, base: seq<int>, n: nat)
    requires PimAddress(c, s, 0) == Ok(base) && PerBankKind(s.kind)
    requires c.depth >= 1 && c.rowLevel != c.columnLevel
    requires c.positions.None? ==> c.bankLevel != c.rowLevel && c.bankLevel != c.columnLevel
    ensures Playable(CompactFields(c, s), |base|)
    ensures AreRequests(c, AtDepth(s, c.depth), CompactRun(base, CompactFields(c, s), 0, n))
  {
    CompactFieldsPlayable(c, s, base);
    var run := CompactRun(base, CompactFields(c, s), 0, n);
    forall k | 0 <= k < |run| && PimAddress(c, AtDepth(s, c.depth), k).Ok?
      ensures run[k] == PimAddress(c, AtDepth(s, c.depth), k).value
    {
      IssueIsRequest(c, s, base, k);
    }
  }

  /** Compact refinement: replaying what one interleaved record was lowered to issues
      one MAC per request, in request order, at the coordinates the address rule gives at
      the configured dwell and in interleave order; how often the stream was cut does not
      show.  CompactReplay says for which records these are their own requests. */
  lemma CompactRecordReplaysItsRequests(t: Target, m: Machine, s: Semantic) returns (issues: seq<seq<int>>)
    requires ValidTarget(t) && Sized(t, m) && TakesCompactPath(t.config, s)
    requires t.config.depth >= 1 && LowerRecord(t, m, s).Ok?
    requires t.config.rowLevel != t.config.columnLevel
    requires t.config.positions.None? ==> t.config.bankLevel != t.config.rowLevel && t.config.bankLevel != t.config.columnLevel
    ensures MacTrace(LowerRecord(t, m, s).value.records) == MacTrace(m.records) + issues
    ensures |issues| == s.numRequests * s.repeat
    ensures AreRequests(t.config, AtDepth(s, t.config.depth), issues)
  {
    CompactRecordIssuesRun(t, m, s);
    var base := PimAddress(t.config, s, 0).value;
    issues := CompactRun(base, CompactFields(t.config, s), 0, RequestCount(s));
    CompactRunAreRequests(t.config, s, base, RequestCount(s));
  }

  // ----- the serial form

  /** The coordinates an address result holds. */
  function Coordinates(address: Result<seq<int>>): seq<int> {
    if address.Ok? then address.value else []
  }

  /** Address of bank position `i` of the serial form. */
  function PositionAddress(c: Config, s: Semantic, i: int): seq<int> {
    Coordinates(PimAddress(c, s, i))
  }

  /** What the turns of the serial form issue. */
  function SerialIssues(turns: seq<Turn>): seq<seq<int>>
    decreases |turns|
  {
    if |turns| == 0 then []
    else Copies(Coordinates(turns[0].address), turns[0].share) + SerialIssues(turns[1..])
  }

  /** Every position's share of `total` requests. */
  function Shares(total: int, banks: nat): (shares: seq<int>)
    requires banks > 0 && total >= 0
    ensures |shares| == banks
    ensures forall i :: 0 <= i < banks ==> shares[i] == Share(total, banks, i) && shares[i] >= 0
  {
    seq(banks, i => Share(total, banks, i))
  }

  function Copies<T>(v: T, n: int): seq<T> {
    if n <= 0 then [] else seq(n, _ => v)
  }

  lemma {:induction false} SplitsIssueCopies(m: Machine, v: seq<int>, splits: seq<int>)
    requires forall i :: 0 <= i < |splits| ==> splits[i] >= 1
    ensures MacTrace(AppendSplits(m, OpMac, v, splits).records) == MacTrace(m.records) + Copies(v, Sum(splits))
    decreases |splits|
  {
    if |splits| > 0 {
      var next := Append(m, OpMac, v, splits[0], None, None);
      MacTraceAppend(m.records, next.records[|m.records|]);
      SplitsIssueCopies(next, v, splits[1..]);
      SumNonNegative(splits[1..]);
      assert Copies(v, splits[0]) + Copies(v, Sum(splits[1..])) == Copies(v, Sum(splits));
      ConcatAssociative(MacTrace(m.records), Copies(v, splits[0]), Copies(v, Sum(splits[1..])));
    }
  }

  /** One bank position of the serial form. */
  lemma SerialBankIssues(t: Target, m: Machine, v: seq<int>, share: int)
    requires ValidTarget(t) && Sized(t, m) && |v| == t.config.size && ToSingleBank(t, m, v).Ok? && share >= 0
    ensures MacTrace(AppendSplits(ToSingleBank(t, m, v).value, OpMac, v, Splits(share, MAX_REPEAT)).records)
         == MacTrace(m.records) + Copies(v, share)
  {
    ToSingleBankIssuesNothing(t, m, v);
    SplitsSum(share, MAX_REPEAT);
    SplitsIssueCopies(ToSingleBank(t, m, v).value, v, Splits(share, MAX_REPEAT));
  }

  lemma {:induction false} SerialBanksIssue(t: Target, m: Machine, turns: seq<Turn>)
    requires ValidTarget(t) && Sized(t, m)
    requires forall i :: 0 <= i < |turns| ==> ProperTurn(turns[i], t.config.size) && turns[i].share >= 0
    requires SerialBanks(t, m, turns).Ok?
    ensures MacTrace(SerialBanks(t, m, turns).value.records) == MacTrace(m.records) + SerialIssues(turns)
    decreases |turns|
  {
    if |turns| > 0 {
      var v, share := Coordinates(turns[0].address), turns[0].share;
      if share == 0 {
        SerialBanksIssue(t, m, turns[1..]);
        assert Copies(v, 0) + SerialIssues(turns[1..]) == SerialIssues(turns[1..]);
      } else {
        SerialBankIssues(t, m, v, share);
        SerialBanksIssue(t, AppendSplits(ToSingleBank(t, m, v).value, OpMac, v, Splits(share, MAX_REPEAT)), turns[1..]);
        ConcatAssociative(MacTrace(m.records), Copies(v, share), SerialIssues(turns[1..]));
      }
    }
  }

  /** One more request gives one more issue to the bank position whose turn it is. */
  lemma ShareOfNext(total: int, banks: nat, i: int)
    requires banks > 0 && total >= 0 && 0 <= i < banks
    ensures Share(total + 1, banks, i) == Share(total, banks, i) + (if i == Rem(total, banks) then 1 else 0)
  {
    QuotRem(total, banks);
    if Rem(total, banks) == banks - 1 {
      assert (Quot(total, banks) + 1) * banks == Quot(total, banks) * banks + banks;
      QuotUnique(total + 1, banks, Quot(total, banks) + 1, 0);
    } else {
      QuotUnique(total + 1, banks, Quot(total, banks), Rem(total, banks) + 1);
    }
  }

  lemma CopiesMultiset<T>(v: T, n: nat)
    ensures multiset(Copies(v, n + 1)) == multiset(Copies(v, n)) + multiset{v}
  {
    assert Copies(v, n + 1) == Copies(v, n) + [v];
  }

  lemma SharesOfNext(total: int, banks: nat)
    requires banks > 0 && total >= 0
    ensures Shares(total + 1, banks)
         == Shares(total, banks)[Rem(total, banks) := Shares(total, banks)[Rem(total, banks)] + 1]
  {
    forall i | 0 <= i < banks
      ensures Shares(total + 1, banks)[i] == Shares(total, banks)[i] + (if i == Rem(total, banks) then 1 else 0)
    {
      ShareOfNext(total, banks, i);
    }
  }

  ghost predicate OneMoreTurn(shares: seq<int>, more: seq<int>, turn: nat) {
    && turn < |shares| == |more| && more[turn] == shares[turn] + 1
    && (forall j :: 0 <= j < |shares| ==> shares[j] >= 0)
    && (forall j :: 0 <= j < |shares| && j != turn ==> more[j] == shares[j])
  }

  /** SerialIssues over a list of addresses, one for each bank position. */
  function IssuesTo<T>(addresses: seq<T>, shares: seq<int>, i: nat): seq<T>
    requires |addresses| == |shares|
    decreases |shares| - i
  {
    if i >= |shares| then [] else Copies(addresses[i], shares[i]) + IssuesTo(addresses, shares, i + 1)
  }

  lemma {:induction false} SerialIssuesAre(turns: seq<Turn>, addresses: seq<seq<int>>, shares: seq<int>, i: nat)
    requires |turns| == |addresses| == |shares| && i <= |turns|
    requires forall j :: 0 <= j < |turns| ==> Coordinates(turns[j].address) == addresses[j] && turns[j].share == shares[j]
    ensures SerialIssues(turns[i..]) == IssuesTo(addresses, shares, i)
    decreases |shares| - i
  {
    if i < |shares| {
      SerialIssuesAre(turns, addresses, shares, i + 1);
      assert turns[i..][1..] == turns[i + 1..];
    }
  }

  /** How often each address is issued to. */
  ghost function IssueBag<T>(a: seq<T>, shares: seq<int>, i: nat): multiset<T>
    requires |a| == |shares| && forall j :: 0 <= j < |shares| ==> shares[j] >= 0
    decreases |shares| - i
  {
    if i >= |shares| then multiset{} else multiset{}[a[i] := shares[i]] + IssueBag(a, shares, i + 1)
  }

  lemma {:induction false} CopiesBag<T>(v: T, n: nat)
    ensures multiset(Copies(v, n)) == multiset{}[v := n]
    decreases n
  {
    if n > 0 {
      CopiesMultiset(v, n - 1);
      CopiesBag(v, n - 1);
    }
  }

  lemma {:induction false} IssuesBag<T>(a: seq<T>, shares: seq<int>, i: nat)
    requires |a| == |shares| && forall j :: 0 <= j < |shares| ==> shares[j] >= 0
    ensures multiset(IssuesTo(a, shares, i)) == IssueBag(a, shares, i)
    decreases |shares| - i
  {
    if i < |shares| {
      IssuesBag(a, shares, i + 1);
      CopiesBag(a[i], shares[i]);
    }
  }

  lemma {:induction false} LaterTurnsSame<T>(a: seq<T>, shares: seq<int>, more: seq<int>, turn: nat, i: nat)
    requires OneMoreTurn(shares, more, turn) && turn < i <= |shares| == |a|
    ensures IssueBag(a, more, i) == IssueBag(a, shares, i)
    decreases |shares| - i
  {
    if i < |shares| {
      LaterTurnsSame(a, shares, more, turn, i + 1);
    }
  }

  lemma {:induction false} SerialIssuesOfNext<T>(a: seq<T>, shares: seq<int>, more: seq<int>, turn: nat, i: nat)
    requires OneMoreTurn(shares, more, turn) && i <= turn && |a| == |shares|
    ensures IssueBag(a, more, i) == IssueBag(a, shares, i) + multiset{a[turn]}
    decreases turn - i
  {
    if i == turn {
      LaterTurnsSame(a, shares, more, turn, i + 1);
      assert multiset{}[a[i] := more[i]] == multiset{}[a[i] := shares[i]] + multiset{a[i]};
    } else {
      SerialIssuesOfNext(a, shares, more, turn, i + 1);
    }
  }

  /** Request `k` goes to the `k`-th address, cyclically. */
  function Cyclic<T>(a: seq<T>, total: nat): (issues: seq<T>)
    requires |a| > 0
    ensures |issues| == total
  {
    seq(total, k requires 0 <= k < total => a[Rem(k, |a|)])
  }

  /** The round-robin stream: request `k` goes to bank position `k` modulo the span. */
  function RoundRobin(c: Config, s: Semantic, total: nat): (issues: seq<seq<int>>)
    requires |s.bankSequence| > 0
    ensures |issues| == total
  {
    seq(total, k => PositionAddress(c, s, Rem(k, |s.bankSequence|)))
  }

  lemma {:induction false} NoRequestsNoIssues<T>(a: seq<T>, shares: seq<int>, i: nat)
    requires i <= |shares| == |a| && forall j :: 0 <= j < |shares| ==> shares[j] == 0
    ensures IssueBag(a, shares, i) == multiset{}
    decreases |shares| - i
  {
    if i < |shares| {
      NoRequestsNoIssues(a, shares, i + 1);
    }
  }

  lemma NoRequestsNoShares(banks: nat)
    requires banks > 0
    ensures forall i :: 0 <= i < banks ==> Shares(0, banks)[i] == 0
  {
    QuotSmall(0, banks);
  }

  lemma CyclicNext<T>(a: seq<T>, total: nat, turn: nat)
    requires |a| > 0 && turn < |a| && turn == Rem(total, |a|)
    ensures multiset(Cyclic(a, total + 1)) == multiset(Cyclic(a, total)) + multiset{a[turn]}
  {
    assert Cyclic(a, total + 1) == Cyclic(a, total) + [a[turn]];
  }

  lemma NextShares(total: nat, banks: nat, shares: seq<int>, more: seq<int>, turn: nat)
    requires banks > 0 && shares == Shares(total, banks) && more == Shares(total + 1, banks) && turn == Rem(total, banks)
    ensures OneMoreTurn(shares, more, turn)
  {
    SharesOfNext(total, banks);
  }

  lemma {:induction false} SharesAreCyclic<T>(a: seq<T>, total: nat, shares: seq<int>)
    requires |a| > 0 && shares == Shares(total, |a|)
    ensures IssueBag(a, shares, 0) == multiset(Cyclic(a, total))
    decreases total
  {
    if total == 0 {
      NoRequestsNoShares(|a|);
      NoRequestsNoIssues(a, shares, 0);
    } else {
      var before, turn := Shares(total - 1, |a|), Rem(total - 1, |a|);
      SharesAreCyclic(a, total - 1, before);
      NextShares(total - 1, |a|, before, shares, turn);
      SerialIssuesOfNext(a, before, shares, turn, 0);
      CyclicNext(a, total - 1, turn);
    }
  }

  lemma SerialIsRoundRobin(c: Config, s: Semantic)
    requires |s.bankSequence| > 0 && RequestCount(s) >= 0
    ensures multiset(SerialIssues(SerialTurns(c, s))) == multiset(RoundRobin(c, s, RequestCount(s)))
    ensures forall i :: 0 <= i < |s.bankSequence| ==> SerialTurns(c, s)[i].share >= 0
  {
    var banks, total, turns := |s.bankSequence|, RequestCount(s), SerialTurns(c, s);
    var a := seq(banks, i => PositionAddress(c, s, i));
    var shares := Shares(total, banks);
    assert turns[0..] == turns;
    SerialIssuesAre(turns, a, shares, 0);
    IssuesBag(a, shares, 0);
    SharesAreCyclic(a, total, shares);
    assert Cyclic(a, total) == RoundRobin(c, s, total);
    assert forall i :: 0 <= i < banks ==> turns[i].share == shares[i];
  }

  function Begun(single: Machine, base: seq<int>): Machine {
    if |single.records| == 0 then Append(single, OpSB, base, 1, None, None) else single
  }

  /** Returning the target ranks to SB issues no MAC. */
  lemma BegunIssuesNothing(t: Target, m: Machine, base: seq<int>, ranks: seq<int>)
    requires ValidTarget(t) && Sized(t, m) && |base| == t.config.size && SingleBankRanks(t, m, base, ranks).Ok?
    ensures MacTrace(Begun(SingleBankRanks(t, m, base, ranks).value, base).records) == MacTrace(m.records)
  {
    var single := SingleBankRanks(t, m, base, ranks).value;
    SingleBankRanksIssueNothing(t, m, base, ranks);
    if |single.records| == 0 {
      MacTraceAppend(single.records, Begun(single, base).records[0]);
    }
  }

  /** How a record of the serial form is lowered. */
  lemma SerialRecordLowers(t: Target, m: Machine, s: Semantic) returns (begun: Machine)
    requires ValidTarget(t) && Sized(t, m) && PerBankKind(s.kind) && !s.accountingOnly
    requires !TakesCompactPath(t.config, s) && !TakesAllBankPath(t.config, s)
    requires LowerRecord(t, m, s).Ok?
    ensures RequestCount(s) >= 1 && |s.bankSequence| > 0 && Sized(t, begun)
    ensures MacTrace(begun.records) == MacTrace(m.records)
    ensures SerialBanks(t, begun, SerialTurns(t.config, s)) == LowerRecord(t, m, s)
  {
    var base := PimAddress(t.config, s, 0).value;
    var ranks := TargetRanks(t, base, s.bankSequence).value;
    MulPositive(s.numRequests, s.repeat);
    begun := Begun(SingleBankRanks(t, m, base, ranks).value, base);
    BegunIssuesNothing(t, m, base, ranks);
  }

  /** Serial conservation: the uninterleaved form issues every request of the round-robin
      stream exactly once, up to order. */
  lemma SerialRecordConservesRequests(t: Target, m: Machine, s: Semantic) returns (issues: seq<seq<int>>)
    requires ValidTarget(t) && Sized(t, m) && PerBankKind(s.kind) && !s.accountingOnly
    requires !TakesCompactPath(t.config, s) && !TakesAllBankPath(t.config, s)
    requires LowerRecord(t, m, s).Ok?
    ensures RequestCount(s) >= 1 && |s.bankSequence| > 0
    ensures MacTrace(LowerRecord(t, m, s).value.records) == MacTrace(m.records) + issues
    ensures multiset(issues) == multiset(RoundRobin(t.config, s, RequestCount(s)))
  {
    var begun := SerialRecordLowers(t, m, s);
    var turns := SerialTurns(t.config, s);
    SerialIsRoundRobin(t.config, s);
    SerialBanksIssue(t, begun, turns);
    issues := SerialIssues(turns);
  }
}
