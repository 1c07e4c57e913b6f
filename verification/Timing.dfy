/** The timing-constraint lowering of `to_config`, and when it preserves and when it
    adds to what a constraint says about schedules. */
module Timing {

  /** `command_cycles` in ticks, with `tick_multiplier` for commands it does not list. */
  datatype Cycles = Cycles(table: map<nat, int>, default: int) {
    function Of(command: nat): int {
      if command in table then table[command] else default
    }
  }

  /** A symbolic constraint with its latency evaluated and its names resolved. */
  datatype Constraint = Constraint(
    level: int, preceding: seq<nat>, following: seq<nat>, nominal: int, window: int, sibling: bool)

  /** A lowered entry. The order of the following commands carries no meaning. */
  datatype Entry = Entry(
    level: int, preceding: seq<nat>, following: set<nat>, latency: int, window: int, sibling: bool)

  datatype Group = Group(latency: int, preceding: seq<nat>, following: set<nat>)

  /** Latency between first cycles that stands for `nominal` between last cycles. */
  function Adjusted(c: Constraint, cycles: Cycles, p: nat, f: nat): int {
    c.nominal + (cycles.Of(p) - 1) - (cycles.Of(f) - 1)
  }

  // ---- the lowering ----

  /** `groups` holds, for every adjusted latency of the processed pairs, exactly the
      commands of the pairs with that latency. */
  ghost predicate Grouped(groups: seq<Group>, pairs: seq<(nat, nat)>, c: Constraint, cycles: Cycles) {
    && (forall i, j :: 0 <= i < j < |groups| ==> groups[i].latency != groups[j].latency)
    && (forall i :: 0 <= i < |groups| ==> GroupExact(groups[i], pairs, c, cycles))
    && (forall k :: 0 <= k < |pairs| ==> HasLatency(groups, Adjusted(c, cycles, pairs[k].0, pairs[k].1)))
  }

  ghost predicate HasLatency(groups: seq<Group>, latency: int) {
    exists i :: 0 <= i < |groups| && groups[i].latency == latency
  }

  ghost predicate PairAt(pairs: seq<(nat, nat)>, c: Constraint, cycles: Cycles, latency: int, p: nat, f: nat) {
    (p, f) in pairs && Adjusted(c, cycles, p, f) == latency
  }

  ghost predicate GroupExact(g: Group, pairs: seq<(nat, nat)>, c: Constraint, cycles: Cycles) {
    && (forall p :: p in g.preceding <==> exists f :: PairAt(pairs, c, cycles, g.latency, p, f))
    && (forall f :: f in g.following <==> exists p :: PairAt(pairs, c, cycles, g.latency, p, f))
  }

  lemma AddToGroup(g: Group, h: Group, pairs: seq<(nat, nat)>, c: Constraint, cycles: Cycles, p: nat, f: nat)
    requires GroupExact(g, pairs, c, cycles) && Adjusted(c, cycles, p, f) == g.latency
    requires h.latency == g.latency && h.following == g.following + {f}
    requires h.preceding == if p in g.preceding then g.preceding else g.preceding + [p]
    ensures GroupExact(h, pairs + [(p, f)], c, cycles)
  {
    var more := pairs + [(p, f)];
    assert PairAt(more, c, cycles, g.latency, p, f);
    forall x: nat ensures x in h.preceding <==> exists y :: PairAt(more, c, cycles, h.latency, x, y) {
      if y: nat :| PairAt(more, c, cycles, h.latency, x, y) {
        assert (x, y) in pairs ==> PairAt(pairs, c, cycles, g.latency, x, y);
      }
      if x in g.preceding {
        var y :| PairAt(pairs, c, cycles, g.latency, x, y);
        assert PairAt(more, c, cycles, h.latency, x, y);
      }
    }
    forall y: nat ensures y in h.following <==> exists x :: PairAt(more, c, cycles, h.latency, x, y) {
      if x: nat :| PairAt(more, c, cycles, h.latency, x, y) {
        assert (x, y) in pairs ==> PairAt(pairs, c, cycles, g.latency, x, y);
      }
      if y in g.following {
        var x :| PairAt(pairs, c, cycles, g.latency, x, y);
        assert PairAt(more, c, cycles, h.latency, x, y);
      }
    }
  }

  lemma OtherGroup(g: Group, pairs: seq<(nat, nat)>, c: Constraint, cycles: Cycles, p: nat, f: nat)
    requires GroupExact(g, pairs, c, cycles) && Adjusted(c, cycles, p, f) != g.latency
    ensures GroupExact(g, pairs + [(p, f)], c, cycles)
  {
    var more := pairs + [(p, f)];
    assert forall x, y :: PairAt(more, c, cycles, g.latency, x, y) <==> PairAt(pairs, c, cycles, g.latency, x, y);
  }

  lemma EmptyGroup(latency: int, pairs: seq<(nat, nat)>, groups: seq<Group>, c: Constraint, cycles: Cycles)
    requires Grouped(groups, pairs, c, cycles) && !HasLatency(groups, latency)
    ensures GroupExact(Group(latency, [], {}), pairs, c, cycles)
  {
    forall p: nat, f: nat | (p, f) in pairs
      ensures HasLatency(groups, Adjusted(c, cycles, p, f))
    {
      var k :| 0 <= k < |pairs| && pairs[k] == (p, f);
      assert HasLatency(groups, Adjusted(c, cycles, pairs[k].0, pairs[k].1));
    }
  }

  /** One iteration of the inner loop. */
  method AddPair(groups: seq<Group>, c: Constraint, cycles: Cycles, p: nat, f: nat, ghost pairs: seq<(nat, nat)>)
      returns (more: seq<Group>)
    requires Grouped(groups, pairs, c, cycles)
    ensures Grouped(more, pairs + [(p, f)], c, cycles)
  {
    var adjusted := Adjusted(c, cycles, p, f);
    var i := 0;
    while i < |groups| && groups[i].latency != adjusted
      invariant 0 <= i <= |groups|
      invariant forall k :: 0 <= k < i ==> groups[k].latency != adjusted
    {
      i := i + 1;
    }
    more := groups;
    if i == |groups| {
      EmptyGroup(adjusted, pairs, groups, c, cycles);
      more := more + [Group(adjusted, [], {})];
    }
    var g := more[i];
    var h := Group(adjusted, if p in g.preceding then g.preceding else g.preceding + [p], g.following + {f});
    AddToGroup(g, h, pairs, c, cycles, p, f);
    more := more[i := h];
    ghost var after := pairs + [(p, f)];
    forall k | 0 <= k < |more|
      ensures GroupExact(more[k], after, c, cycles)
    {
      if k != i {
        OtherGroup(groups[k], pairs, c, cycles, p, f);
      }
    }
    forall k | 0 <= k < |after|
      ensures HasLatency(more, Adjusted(c, cycles, after[k].0, after[k].1))
    {
      if k < |pairs| {
        assert HasLatency(groups, Adjusted(c, cycles, pairs[k].0, pairs[k].1));
        var g0 :| 0 <= g0 < |groups| && groups[g0].latency == Adjusted(c, cycles, pairs[k].0, pairs[k].1);
        assert more[g0].latency == groups[g0].latency;
      } else {
        assert more[i].latency == adjusted;
      }
    }
  }

  /** All (preceding, following) pairs, in loop order. */
  function PairsOf(preceding: seq<nat>, following: seq<nat>): seq<(nat, nat)>
    decreases |preceding|
  {
    if preceding == [] then []
    else PairsOf(preceding[..|preceding| - 1], following) + PairsWith(preceding[|preceding| - 1], following)
  }

  function PairsWith(p: nat, following: seq<nat>): seq<(nat, nat)> {
    seq(|following|, j requires 0 <= j < |following| => (p, following[j]))
  }

  lemma {:induction false} PairsAreProduct(preceding: seq<nat>, following: seq<nat>, p: nat, f: nat)
    ensures (p, f) in PairsOf(preceding, following) <==> p in preceding && f in following
    decreases |preceding|
  {
    if preceding != [] {
      var n := |preceding| - 1;
      PairsAreProduct(preceding[..n], following, p, f);
      assert preceding == preceding[..n] + [preceding[n]];
      if f in following {
        var j :| 0 <= j < |following| && following[j] == f;
        assert PairsWith(preceding[n], following)[j] == (preceding[n], f);
      }
    }
  }

  /** Entries of one constraint: one for each adjusted latency, with exactly the
      commands that some pair of that latency has on either side. */
  ghost predicate Lowered(entries: seq<Entry>, c: Constraint, cycles: Cycles) {
    && (forall i, j :: 0 <= i < j < |entries| ==> entries[i].latency != entries[j].latency)
    && (forall e <- entries :: EntryExact(e, c, cycles))
    && (forall p, f :: p in c.preceding && f in c.following ==> HasEntry(entries, c, cycles, p, f))
  }

  ghost predicate GapPair(c: Constraint, cycles: Cycles, latency: int, p: nat, f: nat) {
    p in c.preceding && f in c.following && Adjusted(c, cycles, p, f) == latency
  }

  ghost predicate EntryExact(e: Entry, c: Constraint, cycles: Cycles) {
    && e.level == c.level && e.window == c.window && e.sibling == c.sibling
    && (forall p :: p in e.preceding <==> exists f :: GapPair(c, cycles, e.latency, p, f))
    && (forall f :: f in e.following <==> exists p :: GapPair(c, cycles, e.latency, p, f))
  }

  ghost predicate HasEntry(entries: seq<Entry>, c: Constraint, cycles: Cycles, p: nat, f: nat) {
    exists i :: 0 <= i < |entries| && entries[i].latency == Adjusted(c, cycles, p, f)
  }

  lemma GroupToEntry(g: Group, c: Constraint, cycles: Cycles)
    requires GroupExact(g, PairsOf(c.preceding, c.following), c, cycles)
    ensures EntryExact(Entry(c.level, g.preceding, g.following, g.latency, c.window, c.sibling), c, cycles)
  {
    var pairs := PairsOf(c.preceding, c.following);
    forall p: nat, f: nat ensures PairAt(pairs, c, cycles, g.latency, p, f) <==> GapPair(c, cycles, g.latency, p, f) {
      PairsAreProduct(c.preceding, c.following, p, f);
    }
  }

  /** The constraint-lowering loop of `to_config` for one constraint. */
  method Lower(c: Constraint, cycles: Cycles) returns (entries: seq<Entry>)
    ensures Lowered(entries, c, cycles)
  {
    var groups := GroupPairs(c, cycles);
    entries := [];
    for i := 0 to |groups|
      invariant |entries| == i
      invariant forall k :: 0 <= k < i ==>
        entries[k] == Entry(c.level, groups[k].preceding, groups[k].following, groups[k].latency, c.window, c.sibling)
    {
      entries := entries + [Entry(c.level, groups[i].preceding, groups[i].following, groups[i].latency, c.window, c.sibling)];
    }
    forall e | e in entries
      ensures EntryExact(e, c, cycles)
    {
      var k :| 0 <= k < |entries| && entries[k] == e;
      GroupToEntry(groups[k], c, cycles);
    }
    forall p, f | p in c.preceding && f in c.following
      ensures HasEntry(entries, c, cycles, p, f)
    {
      ghost var pairs := PairsOf(c.preceding, c.following);
      PairsAreProduct(c.preceding, c.following, p, f);
      var k :| 0 <= k < |pairs| && pairs[k] == (p, f);
      assert HasLatency(groups, Adjusted(c, cycles, pairs[k].0, pairs[k].1));
      var g :| 0 <= g < |groups| && groups[g].latency == Adjusted(c, cycles, p, f);
      assert entries[g].latency == groups[g].latency;
    }
  }

  /** The two nested loops that fill `lat_groups`. */
  method GroupPairs(c: Constraint, cycles: Cycles) returns (groups: seq<Group>)
    ensures Grouped(groups, PairsOf(c.preceding, c.following), c, cycles)
  {
    groups := [];
    ghost var pairs: seq<(nat, nat)> := [];
    for i := 0 to |c.preceding|
      invariant pairs == PairsOf(c.preceding[..i], c.following)
      invariant Grouped(groups, pairs, c, cycles)
    {
      ghost var before := pairs;
      for j := 0 to |c.following|
        invariant pairs == before + PairsWith(c.preceding[i], c.following[..j])
        invariant Grouped(groups, pairs, c, cycles)
      {
        groups := AddPair(groups, c, cycles, c.preceding[i], c.following[j], pairs);
        assert PairsWith(c.preceding[i], c.following[..j + 1])
            == PairsWith(c.preceding[i], c.following[..j]) + [(c.preceding[i], c.following[j])];
        pairs := pairs + [(c.preceding[i], c.following[j])];
      }
      assert c.following[..|c.following|] == c.following;
      assert c.preceding[..i + 1][..i] == c.preceding[..i];
    }
    assert c.preceding[..|c.preceding|] == c.preceding;
  }

  // ---- schedules ----

  /** A command issued with its first cycle at `time`. */
  datatype Issue = Issue(command: nat, time: int)

  type Schedule = seq<Issue>

  /** Which earlier issue constrains which later one: decided by the level, the window
      and the sibling flag, the same for a constraint and its entries. */
  type Selection = (nat, nat) -> bool

  predicate InOrder(s: Schedule) {
    forall i, j :: 0 <= i < j < |s| ==> s[i].time <= s[j].time
  }

  /** Last cycle of an issue. */
  function LastCycle(i: Issue, cycles: Cycles): int {
    i.time + cycles.Of(i.command) - 1
  }

  predicate MeetsEntry(s: Schedule, select: Selection, e: Entry) {
    forall i: nat, j: nat :: i < j < |s| && select(i, j) && s[i].command in e.preceding && s[j].command in e.following ==>
      s[j].time >= s[i].time + e.latency
  }

  predicate MeetsEntries(s: Schedule, select: Selection, entries: seq<Entry>) {
    forall k :: 0 <= k < |entries| ==> MeetsEntry(s, select, entries[k])
  }

  /** What the constraint means: its latency between last cycles. */
  predicate MeetsConstraint(s: Schedule, select: Selection, c: Constraint, cycles: Cycles) {
    forall i: nat, j: nat :: i < j < |s| && select(i, j) && s[i].command in c.preceding && s[j].command in c.following ==>
      LastCycle(s[j], cycles) >= LastCycle(s[i], cycles) + c.nominal
  }

  /** Every schedule that meets the entries keeps the constraint. */
  lemma LoweringPreserves(entries: seq<Entry>, c: Constraint, cycles: Cycles, s: Schedule, select: Selection)
    requires Lowered(entries, c, cycles) && MeetsEntries(s, select, entries)
    ensures MeetsConstraint(s, select, c, cycles)
  {
    forall i: nat, j: nat | i < j < |s| && select(i, j) && s[i].command in c.preceding && s[j].command in c.following
      ensures LastCycle(s[j], cycles) >= LastCycle(s[i], cycles) + c.nominal
    {
      var p, f := s[i].command, s[j].command;
      assert HasEntry(entries, c, cycles, p, f);
      var k :| 0 <= k < |entries| && entries[k].latency == Adjusted(c, cycles, p, f);
      var e := entries[k];
      assert EntryExact(e, c, cycles) && GapPair(c, cycles, e.latency, p, f);
      assert MeetsEntry(s, select, e);
    }
  }

  /** Two pairs of the constraint share a binding adjusted latency although their
      commands differ in cycle count, so the product of their group mixes them. */
  ghost predicate SharedGap(c: Constraint, cycles: Cycles) {
    exists p1, f1, p2, f2 :: Mixes(c, cycles, p1, f1, p2, f2)
  }

  ghost predicate Mixes(c: Constraint, cycles: Cycles, p1: nat, f1: nat, p2: nat, f2: nat) {
    && p1 in c.preceding && p2 in c.preceding && f1 in c.following && f2 in c.following
    && cycles.Of(p1) - cycles.Of(p2) == cycles.Of(f1) - cycles.Of(f2) > 0
    && Adjusted(c, cycles, p1, f1) > 0
  }

  /** Without a shared gap, the entries demand nothing the constraint does not. */
  lemma LoweringAddsNothing(entries: seq<Entry>, c: Constraint, cycles: Cycles, s: Schedule, select: Selection)
    requires Lowered(entries, c, cycles) && !SharedGap(c, cycles)
    requires InOrder(s) && MeetsConstraint(s, select, c, cycles)
    ensures MeetsEntries(s, select, entries)
  {
    forall k, i: nat, j: nat | 0 <= k < |entries| && i < j < |s| && select(i, j)
                               && s[i].command in entries[k].preceding && s[j].command in entries[k].following
      ensures s[j].time >= s[i].time + entries[k].latency
    {
      var e, p, f := entries[k], s[i].command, s[j].command;
      assert e in entries && EntryExact(e, c, cycles);
      var f0 :| GapPair(c, cycles, e.latency, p, f0);
      var p0 :| GapPair(c, cycles, e.latency, p0, f);
      ExcessMixes(c, cycles, e.latency, p, f, p0, f0);
    }
  }

  /** A group latency above a member pair's own comes from two pairs that mix. */
  lemma ExcessMixes(c: Constraint, cycles: Cycles, latency: int, p: nat, f: nat, p0: nat, f0: nat)
    requires GapPair(c, cycles, latency, p, f0) && GapPair(c, cycles, latency, p0, f)
    ensures latency > Adjusted(c, cycles, p, f) && latency > 0 ==> SharedGap(c, cycles)
  {
    if latency > Adjusted(c, cycles, p, f) && latency > 0 {
      assert Mixes(c, cycles, p0, f, p, f0);
    }
  }

  function Always(): Selection {
    (i, j) => true
  }

  /** A pair issued at exactly its adjusted latency keeps the constraint. */
  lemma PairKeepsConstraint(c: Constraint, cycles: Cycles, p: nat, f: nat, gap: int)
    requires gap >= 0 && gap >= Adjusted(c, cycles, p, f)
    ensures InOrder([Issue(p, 0), Issue(f, gap)])
    ensures MeetsConstraint([Issue(p, 0), Issue(f, gap)], Always(), c, cycles)
  {
  }

  lemma PairBreaksEntry(e: Entry, p: nat, f: nat, gap: int, entries: seq<Entry>)
    requires p in e.preceding && f in e.following && gap < e.latency && e in entries
    ensures !MeetsEntries([Issue(p, 0), Issue(f, gap)], Always(), entries)
  {
    var s := [Issue(p, 0), Issue(f, gap)];
    assert s[0].command in e.preceding && s[1].command in e.following && Always()(0, 1);
    assert !MeetsEntry(s, Always(), e);
  }

  /** With one, some schedule that keeps the constraint breaks an entry. */
  lemma SharedGapRestricts(entries: seq<Entry>, c: Constraint, cycles: Cycles) returns (s: Schedule)
    requires Lowered(entries, c, cycles) && SharedGap(c, cycles)
    ensures InOrder(s) && MeetsConstraint(s, Always(), c, cycles) && !MeetsEntries(s, Always(), entries)
  {
    var p1, f1, p2, f2 :| Mixes(c, cycles, p1, f1, p2, f2);
    var latency, need := Adjusted(c, cycles, p1, f1), Adjusted(c, cycles, p2, f1);
    var gap := if need > 0 then need else 0;
    s := [Issue(p2, 0), Issue(f1, gap)];
    PairKeepsConstraint(c, cycles, p2, f1, gap);
    var e := MixedEntry(entries, c, cycles, p1, f1, p2, f2);
    PairBreaksEntry(e, p2, f1, gap, entries);
  }

  lemma MixedEntry(entries: seq<Entry>, c: Constraint, cycles: Cycles, p1: nat, f1: nat, p2: nat, f2: nat) returns (e: Entry)
    requires Lowered(entries, c, cycles) && Mixes(c, cycles, p1, f1, p2, f2)
    ensures e in entries && p2 in e.preceding && f1 in e.following && e.latency == Adjusted(c, cycles, p1, f1)
  {
    assert HasEntry(entries, c, cycles, p1, f1);
    var k :| 0 <= k < |entries| && entries[k].latency == Adjusted(c, cycles, p1, f1);
    e := entries[k];
    assert EntryExact(e, c, cycles);
    assert GapPair(c, cycles, e.latency, p1, f1) && GapPair(c, cycles, e.latency, p2, f2);
  }

  ghost predicate ExactFor(s: Schedule, select: Selection, entries: seq<Entry>, c: Constraint, cycles: Cycles) {
    InOrder(s) ==> (MeetsEntries(s, select, entries) <==> MeetsConstraint(s, select, c, cycles))
  }

  /** The entries mean the constraint, for every schedule and selection, if and only if
      no two of its pairs share a gap. */
  lemma LoweringExactly(entries: seq<Entry>, c: Constraint, cycles: Cycles)
    requires Lowered(entries, c, cycles)
    ensures (forall s, select :: ExactFor(s, select, entries, c, cycles)) <==> !SharedGap(c, cycles)
  {
    if SharedGap(c, cycles) {
      var s := SharedGapRestricts(entries, c, cycles);
      assert !ExactFor(s, Always(), entries, c, cycles);
    } else {
      forall s, select
        ensures ExactFor(s, select, entries, c, cycles)
      {
        if MeetsEntries(s, select, entries) {
          LoweringPreserves(entries, c, cycles, s, select);
        }
        if InOrder(s) && MeetsConstraint(s, select, c, cycles) {
          LoweringAddsNothing(entries, c, cycles, s, select);
        }
      }
    }
  }

  predicate Uniform(commands: seq<nat>, cycles: Cycles) {
    forall a, b :: a in commands && b in commands ==> cycles.Of(a) == cycles.Of(b)
  }

  /** A constraint with one cycle count on either side lowers exactly. */
  lemma UniformIsExact(c: Constraint, cycles: Cycles)
    requires Uniform(c.preceding, cycles) || Uniform(c.following, cycles)
    ensures !SharedGap(c, cycles)
  {
  }

  /** One-cycle and two-cycle commands on both sides mix: a two-cycle command must then
      wait one tick longer after a one-cycle command than the constraint asks. */
  lemma MixedCyclesExample()
    ensures var c := Constraint(0, [0, 1], [0, 1], 4, 1, false);
      SharedGap(c, Cycles(map[0 := 1, 1 := 2], 1))
  {
    assert Mixes(Constraint(0, [0, 1], [0, 1], 4, 1, false), Cycles(map[0 := 1, 1 := 2], 1), 1, 1, 0, 0);
  }
}
