/** `_generate_bus_constraints`: command-bus occupancy. */
module BusTiming {
  import opened Timing

  // ---- the generator ----

  /** Commands of a bus by cycle count, in order of first appearance. */
  datatype TickGroup = TickGroup(ticks: int, commands: seq<nat>)

  ghost predicate GroupedByTicks(groups: seq<TickGroup>, done: seq<nat>, cycles: Cycles) {
    && (forall i, j :: 0 <= i < j < |groups| ==> groups[i].ticks != groups[j].ticks)
    && (forall i, c :: 0 <= i < |groups| && c in groups[i].commands ==> c in done && cycles.Of(c) == groups[i].ticks)
    && (forall c :: c in done ==> InGroup(groups, c))
  }

  ghost predicate InGroup(groups: seq<TickGroup>, c: nat) {
    exists i :: 0 <= i < |groups| && c in groups[i].commands
  }

  method AddCommand(groups: seq<TickGroup>, c: nat, cycles: Cycles, ghost done: seq<nat>) returns (more: seq<TickGroup>)
    requires GroupedByTicks(groups, done, cycles)
    ensures GroupedByTicks(more, done + [c], cycles)
  {
    var ticks := cycles.Of(c);
    var i := 0;
    while i < |groups| && groups[i].ticks != ticks
      invariant 0 <= i <= |groups|
      invariant forall k :: 0 <= k < i ==> groups[k].ticks != ticks
    {
      i := i + 1;
    }
    more := groups;
    if i == |groups| {
      more := more + [TickGroup(ticks, [])];
    }
    more := more[i := TickGroup(ticks, more[i].commands + [c])];
    forall x | x in done + [c]
      ensures InGroup(more, x)
    {
      if x in done {
        assert InGroup(groups, x);
        var k :| 0 <= k < |groups| && x in groups[k].commands;
        assert x in more[k].commands;
      } else {
        assert x in more[i].commands;
      }
    }
  }

  /** Entries of one bus: a command of `ticks` other than one blocks the whole bus for
      that long. */
  ghost predicate BusEntries(entries: seq<Entry>, bus: seq<nat>, cycles: Cycles) {
    && (forall k :: 0 <= k < |entries| ==> BusEntry(entries[k], bus, cycles))
    && (forall c :: c in bus && cycles.Of(c) != 1 ==> Blocks(entries, c))
  }

  ghost predicate BusEntry(e: Entry, bus: seq<nat>, cycles: Cycles) {
    && e.level == 0 && e.window == 1 && !e.sibling
    && (forall c :: c in e.preceding ==> c in bus && cycles.Of(c) == e.latency)
    && (forall c :: c in e.following <==> c in bus)
  }

  ghost predicate Blocks(entries: seq<Entry>, c: nat) {
    exists k :: 0 <= k < |entries| && c in entries[k].preceding
  }

  method GenerateBus(bus: seq<nat>, cycles: Cycles) returns (entries: seq<Entry>)
    ensures BusEntries(entries, bus, cycles)
  {
    var groups: seq<TickGroup> := [];
    for i := 0 to |bus|
      invariant GroupedByTicks(groups, bus[..i], cycles)
    {
      assert bus[..i + 1] == bus[..i] + [bus[i]];
      groups := AddCommand(groups, bus[i], cycles, bus[..i]);
    }
    assert bus[..|bus|] == bus;
    var all := set c | c in bus;
    entries := [];
    for i := 0 to |groups|
      invariant forall k :: 0 <= k < |entries| ==> BusEntry(entries[k], bus, cycles)
      invariant forall k, c :: 0 <= k < i && groups[k].ticks != 1 && c in groups[k].commands ==> Blocks(entries, c)
    {
      if groups[i].ticks == 1 {
        continue;
      }
      var e := Entry(0, groups[i].commands, all, groups[i].ticks, 1, false);
      MoreBlocks(entries, e);
      entries := entries + [e];
    }
    forall c | c in bus && cycles.Of(c) != 1
      ensures Blocks(entries, c)
    {
      assert InGroup(groups, c);
    }
  }

  lemma MoreBlocks(entries: seq<Entry>, e: Entry)
    ensures forall c :: Blocks(entries, c) || c in e.preceding ==> Blocks(entries + [e], c)
  {
    forall c | Blocks(entries, c) || c in e.preceding
      ensures Blocks(entries + [e], c)
    {
      if c in e.preceding {
        assert c in (entries + [e])[|entries|].preceding;
      } else {
        var k :| 0 <= k < |entries| && c in entries[k].preceding;
        assert c in (entries + [e])[k].preceding;
      }
    }
  }

  /** A standard that lists row and column commands has two buses; otherwise all its
      commands share one. */
  function Buses(commands: seq<nat>, row: seq<nat>, column: seq<nat>): seq<seq<nat>> {
    if row != [] && column != [] then [row, column] else [commands]
  }

  /** For every schedule in time order, the entries keep each of the buses to one command
      at a time, given the controller's rule of one command a tick, and demand no more. */
  ghost predicate ExactFor(entries: seq<Entry>, buses: seq<seq<nat>>, cycles: Cycles) {
    (forall b :: 0 <= b < |buses| ==> PositiveCycles(buses[b], cycles)) ==>
      forall s: Schedule :: InTimeOrder(s) ==>
        ((forall b :: 0 <= b < |buses| ==> Disjoint(s, buses[b], cycles))
         <==> MeetsEntries(s, Always(), entries) && (forall b :: 0 <= b < |buses| ==> OnePerTick(s, buses[b])))
  }

  /** The entries of all buses.  With row and column commands, the row bus and the column
      bus are each kept to one command at a time; without, the one bus of all commands. */
  method GenerateBuses(commands: seq<nat>, row: seq<nat>, column: seq<nat>, cycles: Cycles)
      returns (entries: seq<Entry>, ghost parts: seq<seq<Entry>>)
    ensures |parts| == |Buses(commands, row, column)| && entries == Flatten(parts)
    ensures forall b :: 0 <= b < |parts| ==> BusEntries(parts[b], Buses(commands, row, column)[b], cycles)
    ensures row != [] && column != [] ==> ExactFor(entries, [row, column], cycles)
    ensures row == [] || column == [] ==> ExactFor(entries, [commands], cycles)
  {
    var buses := Buses(commands, row, column);
    entries, parts := [], [];
    for b := 0 to |buses|
      invariant |parts| == b && entries == Flatten(parts)
      invariant forall k :: 0 <= k < b ==> BusEntries(parts[k], buses[k], cycles)
    {
      var part := GenerateBus(buses[b], cycles);
      assert (parts + [part])[..b] == parts;
      entries, parts := entries + part, parts + [part];
    }
    GeneratedExactly(entries, parts, buses, cycles);
  }

  lemma GeneratedExactly(entries: seq<Entry>, parts: seq<seq<Entry>>, buses: seq<seq<nat>>, cycles: Cycles)
    requires |parts| == |buses| && entries == Flatten(parts)
    requires forall b :: 0 <= b < |buses| ==> BusEntries(parts[b], buses[b], cycles)
    ensures ExactFor(entries, buses, cycles)
  {
    if forall b :: 0 <= b < |buses| ==> PositiveCycles(buses[b], cycles) {
      forall s: Schedule | InTimeOrder(s)
        ensures (forall b :: 0 <= b < |buses| ==> Disjoint(s, buses[b], cycles))
           <==> MeetsEntries(s, Always(), entries) && (forall b :: 0 <= b < |buses| ==> OnePerTick(s, buses[b]))
      {
        OccupancyExact(parts, buses, cycles, s);
      }
    }
  }

  function Flatten(parts: seq<seq<Entry>>): seq<Entry>
    decreases |parts|
  {
    if parts == [] then [] else Flatten(parts[..|parts| - 1]) + parts[|parts| - 1]
  }

  // ---- occupancy ----

  /** Ticks during which an issue holds its bus. */
  predicate Occupies(i: Issue, cycles: Cycles, tick: int) {
    i.time <= tick < i.time + cycles.Of(i.command)
  }

  /** No two issues hold the bus at the same tick. */
  ghost predicate Disjoint(s: Schedule, bus: seq<nat>, cycles: Cycles) {
    forall i: nat, j: nat :: i < j < |s| && s[i].command in bus && s[j].command in bus ==> Apart(s[i], s[j], cycles)
  }

  ghost predicate Apart(a: Issue, b: Issue, cycles: Cycles) {
    forall tick :: !(Occupies(a, cycles, tick) && Occupies(b, cycles, tick))
  }

  /** A schedule lists its issues in order of time. */
  predicate InTimeOrder(s: Schedule) {
    forall i: nat, j: nat :: i < j < |s| ==> s[i].time <= s[j].time
  }

  /** What the controller adds: at most one command a tick on the bus. */
  predicate OnePerTick(s: Schedule, bus: seq<nat>) {
    forall i: nat, j: nat :: i < j < |s| && s[i].command in bus && s[j].command in bus ==> s[i].time < s[j].time
  }

  predicate PositiveCycles(bus: seq<nat>, cycles: Cycles) {
    forall c <- bus :: cycles.Of(c) >= 1
  }

  lemma ApartInOrder(a: Issue, b: Issue, cycles: Cycles)
    requires a.time < b.time && cycles.Of(b.command) >= 1
    ensures Apart(a, b, cycles) <==> b.time >= a.time + cycles.Of(a.command)
  {
    if b.time < a.time + cycles.Of(a.command) {
      assert Occupies(a, cycles, b.time) && Occupies(b, cycles, b.time);
    }
  }

  lemma DisjointIsOnePerTick(bus: seq<nat>, cycles: Cycles, s: Schedule)
    requires PositiveCycles(bus, cycles) && InTimeOrder(s) && Disjoint(s, bus, cycles)
    ensures OnePerTick(s, bus)
  {
    forall i: nat, j: nat | i < j < |s| && s[i].command in bus && s[j].command in bus
      ensures s[i].time < s[j].time
    {
      assert Apart(s[i], s[j], cycles);
      if s[i].time == s[j].time {
        assert Occupies(s[i], cycles, s[i].time) && Occupies(s[j], cycles, s[i].time);
      }
    }
  }

  /** A schedule never holds the bus twice at a time if and only if it meets the entries
      and issues one command a tick: the entries that one-tick commands do not get are
      exactly what the controller's rule replaces.  On the channel every earlier issue
      constrains every later one. */
  lemma BusOccupancyExact(entries: seq<Entry>, bus: seq<nat>, cycles: Cycles, s: Schedule)
    requires BusEntries(entries, bus, cycles) && PositiveCycles(bus, cycles) && InTimeOrder(s)
    ensures Disjoint(s, bus, cycles) <==> MeetsEntries(s, Always(), entries) && OnePerTick(s, bus)
  {
    if MeetsEntries(s, Always(), entries) && OnePerTick(s, bus) {
      forall i: nat, j: nat | i < j < |s| && s[i].command in bus && s[j].command in bus
        ensures Apart(s[i], s[j], cycles)
      {
        ApartInOrder(s[i], s[j], cycles);
        if cycles.Of(s[i].command) != 1 {
          assert Blocks(entries, s[i].command);
          var k :| 0 <= k < |entries| && s[i].command in entries[k].preceding;
          assert BusEntry(entries[k], bus, cycles) && MeetsEntry(s, Always(), entries[k]);
        }
      }
    }
    if Disjoint(s, bus, cycles) {
      DisjointIsOnePerTick(bus, cycles, s);
      forall k | 0 <= k < |entries|
        ensures MeetsEntry(s, Always(), entries[k])
      {
        BusEntryMet(entries[k], bus, cycles, s);
      }
    }
  }

  lemma BusEntryMet(e: Entry, bus: seq<nat>, cycles: Cycles, s: Schedule)
    requires BusEntry(e, bus, cycles) && PositiveCycles(bus, cycles) && OnePerTick(s, bus) && Disjoint(s, bus, cycles)
    ensures MeetsEntry(s, Always(), e)
  {
    forall i: nat, j: nat | i < j < |s| && s[i].command in e.preceding && s[j].command in e.following
      ensures s[j].time >= s[i].time + e.latency
    {
      assert Apart(s[i], s[j], cycles);
      ApartInOrder(s[i], s[j], cycles);
    }
  }

  lemma {:induction false} FlattenMeets(parts: seq<seq<Entry>>, s: Schedule, select: Selection)
    ensures MeetsEntries(s, select, Flatten(parts)) <==> forall b :: 0 <= b < |parts| ==> MeetsEntries(s, select, parts[b])
    decreases |parts|
  {
    if parts != [] {
      var n := |parts| - 1;
      FlattenMeets(parts[..n], s, select);
      MeetsConcat(Flatten(parts[..n]), parts[n], s, select);
      assert forall b :: 0 <= b < n ==> parts[..n][b] == parts[b];
    }
  }

  lemma MeetsConcat(a: seq<Entry>, b: seq<Entry>, s: Schedule, select: Selection)
    ensures MeetsEntries(s, select, a + b) <==> MeetsEntries(s, select, a) && MeetsEntries(s, select, b)
  {
    if MeetsEntries(s, select, a + b) {
      assert forall k :: 0 <= k < |a| ==> a[k] == (a + b)[k];
      assert forall k :: 0 <= k < |b| ==> b[k] == (a + b)[|a| + k];
    }
  }

  /** The generated constraints are exact for single-bus and dual-bus standards: with
      one command a tick on each bus they hold if and only if every bus is held by one
      command at a time, with no blocking between buses. */
  lemma OccupancyExact(parts: seq<seq<Entry>>, buses: seq<seq<nat>>, cycles: Cycles, s: Schedule)
    requires |parts| == |buses| && InTimeOrder(s)
    requires forall b :: 0 <= b < |buses| ==> BusEntries(parts[b], buses[b], cycles) && PositiveCycles(buses[b], cycles)
    ensures (forall b :: 0 <= b < |buses| ==> Disjoint(s, buses[b], cycles))
       <==> MeetsEntries(s, Always(), Flatten(parts)) && (forall b :: 0 <= b < |buses| ==> OnePerTick(s, buses[b]))
  {
    FlattenMeets(parts, s, Always());
    forall b | 0 <= b < |buses|
      ensures Disjoint(s, buses[b], cycles) <==> MeetsEntries(s, Always(), parts[b]) && OnePerTick(s, buses[b])
    {
      BusOccupancyExact(parts[b], buses[b], cycles, s);
    }
  }

  /** Two commands of one tick on one bus meet the constraints and still collide when
      issued at the same tick, so the one-per-tick rule cannot be left out. */
  lemma SameTickCollides()
    ensures var s := [Issue(0, 5), Issue(1, 5)];
      && BusEntries([], [0, 1], Cycles(map[], 1)) && MeetsEntries(s, Always(), []) && InTimeOrder(s)
      && !Disjoint(s, [0, 1], Cycles(map[], 1))
  {
    var s := [Issue(0, 5), Issue(1, 5)];
    assert Occupies(s[0], Cycles(map[], 1), 5) && Occupies(s[1], Cycles(map[], 1), 5);
    assert !Apart(s[0], s[1], Cycles(map[], 1));
  }
}
