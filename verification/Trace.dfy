/** The concrete opcode trace: its records, the mode rules `validate_sequence` checks
    before a trace is written or replayed, and what one record expands to when the
    native frontend replays it. */
module Trace {
  import opened Division
  import opened FlatBank
  import opened MixedRadix
  import opened Results
  import opened Sequences

  datatype Mode = SB | HAB | HabPim

  datatype Opcode = OpRead | OpWrite | OpSB | OpHAB | OpHabPim | OpBcast | OpMac | OpMacAb

  /** In-memory interleaving fields of a compact PIM_MAC record. */
  datatype Interleave = Interleave(
    bankSequence: seq<int>,
    dependencyCount: int,
    rowCount: int,
    rowStart: int,
    columnStart: int,
    rowOffset: int,
    columnOffset: int,
    depth: int,
    startIndex: int,
    banks: Option<(seq<int>, seq<int>)>,
    bankLevel: int,
    rowLevel: int,
    columnLevel: int)

  datatype HostBytes = HostBytes(base: int, stride: int)

  /** `id` is the number in the record's `op_NNNN` name; stride 0 is an absent field. */
  datatype Concrete = Concrete(
    id: nat,
    opcode: Opcode,
    repeat: int,
    addrVec: seq<int>,
    host: Option<HostBytes>,
    interleave: Option<Interleave>)

  // ----- mode rules

  datatype RankState = RankState(mode: Mode, broadcast: bool)

  type Ranks = map<int, RankState>

  function Get(ranks: Ranks, r: int): RankState {
    if r in ranks then ranks[r] else RankState(SB, false)
  }

  /** How a trace is read: where its Rank level is (None for a device without one, seen
      as one rank), and whether a compact record also counts the rank of its own
      `addr_vec`, which the validator does not do. */
  datatype View = View(rankLevel: Option<nat>, own: bool)

  /** Every rank a record touches. */
  function RanksOf(rec: Concrete, view: View): (ranks: set<int>) {
    if view.rankLevel.None? || view.rankLevel.value >= |rec.addrVec| then {0}
    else
      var own := rec.addrVec[view.rankLevel.value];
      if rec.opcode != OpMac || rec.interleave.None? || rec.interleave.value.bankSequence == [] then {own}
      else
        var i := rec.interleave.value;
        if i.banks.None? || |i.banks.value.0| != |i.banks.value.1| || !Positive(i.banks.value.1) then {own}
        else
          (set b | b in i.bankSequence :: RankDigit(b, i.banks.value.0, i.banks.value.1, view.rankLevel.value, own))
          + (if view.own then {own} else {})
  }

  function SetAll(ranks: Ranks, touched: set<int>, state: RankState): Ranks {
    ranks + map r | r in touched :: state
  }

  /** The mode contract of the README: HAB -> PIM_BCAST -> HAB_PIM -> PIM_MAC_AB, SB to
      return, and no host access or per-bank MAC outside SB. */
  predicate Legal(ranks: Ranks, opcode: Opcode, touched: set<int>) {
    forall r :: r in touched ==>
      match opcode
      case OpRead => Get(ranks, r).mode == SB
      case OpWrite => Get(ranks, r).mode == SB
      case OpSB => true
      case OpHAB => true
      case OpBcast => Get(ranks, r).mode == HAB
      case OpHabPim => Get(ranks, r) == RankState(HAB, true)
      case OpMacAb => Get(ranks, r) == RankState(HabPim, true)
      case OpMac => Get(ranks, r).mode == SB
  }

  function After(ranks: Ranks, opcode: Opcode, touched: set<int>): Ranks {
    match opcode
    case OpSB => SetAll(ranks, touched, RankState(SB, false))
    case OpHAB => SetAll(ranks, touched, RankState(HAB, false))
    case OpHabPim => ranks + map r | r in touched :: RankState(HabPim, Get(ranks, r).broadcast)
    case OpBcast => ranks + map r | r in touched :: RankState(Get(ranks, r).mode, true)
    case _ => ranks
  }

  /** The checks `validate_sequence` itself makes: it asks less of HAB_PIM, which needs a
      broadcast flag but not HAB mode. */
  predicate Checked(ranks: Ranks, opcode: Opcode, touched: set<int>) {
    if opcode == OpHabPim then forall r :: r in touched ==> Get(ranks, r).broadcast
    else Legal(ranks, opcode, touched)
  }

  /** Replay from all ranks in SB; None once a record breaks the rules, which are the
      contract's when `strict` and the validator's otherwise. */
  function Replay(strict: bool, view: View, records: seq<Concrete>): Option<Ranks> {
    if |records| == 0 then Some(map[])
    else
      var n := |records| - 1;
      var before := Replay(strict, view, records[..n]);
      var touched := RanksOf(records[n], view);
      if before.None? then None
      else if if strict then Legal(before.value, records[n].opcode, touched)
              else Checked(before.value, records[n].opcode, touched)
      then Some(After(before.value, records[n].opcode, touched))
      else None
  }

  /** The mode automaton of `validate_sequence`, record by record. */
  method ValidateModes(records: seq<Concrete>, view: View) returns (ok: bool)
    ensures ok <==> Replay(false, view, records).Some?
  {
    var ranks: Ranks := map[];
    for index := 0 to |records|
      invariant Replay(false, view, records[..index]) == Some(ranks)
    {
      assert records[..index + 1][..index] == records[..index];
      var touched := RanksOf(records[index], view);
      if !Checked(ranks, records[index].opcode, touched) {
        ReplayPrefix(false, view, records, index + 1);
        return false;
      }
      ranks := After(ranks, records[index].opcode, touched);
    }
    assert records[..|records|] == records;
    return true;
  }

  lemma {:induction false} ReplayPrefix(strict: bool, view: View, records: seq<Concrete>, n: nat)
    requires n <= |records|
    ensures Replay(strict, view, records).Some? ==> Replay(strict, view, records[..n]).Some?
  {
    if n == |records| {
      assert records[..n] == records;
    } else {
      var last := |records| - 1;
      ReplayPrefix(strict, view, records[..last], n);
      assert records[..last][..n] == records[..n];
    }
  }

  /** A trace that keeps the contract passes the validator, in the same final state. */
  lemma {:induction false} ContractImpliesValidator(view: View, records: seq<Concrete>)
    requires Replay(true, view, records).Some?
    ensures Replay(false, view, records) == Replay(true, view, records)
  {
    if |records| > 0 {
      ContractImpliesValidator(view, records[..|records| - 1]);
    }
  }

  // ----- expansion at replay time

  /** The field checks `make_request` relies on. */
  predicate Playable(c: Interleave, size: nat) {
    && c.depth >= 1 && |c.bankSequence| > 0 && c.dependencyCount >= 1 && c.rowCount >= 1
    && 0 <= c.columnLevel < size && 0 <= c.rowLevel < size
    && (c.banks.Some? ==> BankMap(c.banks.value.0, c.banks.value.1, size))
    && (c.banks.None? ==> 0 <= c.bankLevel < size)
  }

  /** The coordinates of issue `i` of a compact record: `make_request` of the frontend. */
  function CompactAddress(rec: Concrete, i: int): (v: seq<int>)
    requires rec.interleave.Some? && Playable(rec.interleave.value, |rec.addrVec|)
    ensures |v| == |rec.addrVec|
  {
    var c := rec.interleave.value;
    var group := Quot(c.startIndex + i, c.depth);
    var flat := c.bankSequence[Rem(group, |c.bankSequence|)];
    var cycle := Quot(group, |c.bankSequence|);
    var column := c.columnStart + Rem(c.columnOffset + cycle, c.dependencyCount);
    var row := c.rowStart + Rem(c.rowOffset + Quot(cycle, c.dependencyCount), c.rowCount);
    var v := rec.addrVec[c.columnLevel := column][c.rowLevel := row];
    if c.banks.Some? then
      Place(flat, v, c.banks.value.0, c.banks.value.1, Identity(|c.banks.value.0|))
    else v[c.bankLevel := flat]
  }

  /** The coordinates of every issue of one PIM_MAC record. */
  function MacIssues(rec: Concrete): seq<seq<int>> {
    if rec.opcode != OpMac || rec.repeat <= 0 then []
    else if rec.interleave.None? then seq(rec.repeat, _ => rec.addrVec)
    else if !Playable(rec.interleave.value, |rec.addrVec|) then []
    else seq(rec.repeat, i => CompactAddress(rec, i))
  }

  /** The per-bank MACs a run of records issues, in order. */
  function MacTrace(records: seq<Concrete>): seq<seq<int>> {
    FlatMap(MacIssues, records)
  }

  /** Byte address of issue `i` of a host record. */
  function HostAddress(rec: Concrete, i: int): int
    requires rec.host.Some?
  {
    rec.host.value.base + i * rec.host.value.stride
  }

  /** The byte addresses one record replays with host opcode `opcode`. */
  function Issues(opcode: Opcode, rec: Concrete): seq<int> {
    if rec.opcode == opcode && rec.host.Some? && rec.repeat > 0 then seq(rec.repeat, i => HostAddress(rec, i)) else []
  }

  function IssuesOf(opcode: Opcode): Concrete -> seq<int> {
    (rec: Concrete) => Issues(opcode, rec)
  }

  /** The byte addresses a run of records replays with `opcode`, in order. */
  function HostTrace(opcode: Opcode, records: seq<Concrete>): seq<int> {
    FlatMap(IssuesOf(opcode), records)
  }
}
