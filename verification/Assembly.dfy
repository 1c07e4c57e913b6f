/** Placing blocks in a growing trace: what the layer assembly does between the block
    generators. */
module Assembly {
  import opened Manifests
  import opened Records
  import opened Relinking

  // ---- a trace and its parts ----

  ghost predicate Trace(rs: seq<Record>, next: int, ports: bool) {
    Sound(map[], rs, ports) && next >= 0 && forall k :: k in Env(rs) ==> 0 <= k < next
  }

  /** `part` continues the trace `rs`, and belongs to one layer. */
  ghost predicate Extended(rs: seq<Record>, part: seq<Record>, next: int, next2: int, layer: nat, ports: bool) {
    && Trace(rs + part, next2, ports) && next <= next2 && Keeps(rs, rs + part)
    && forall i :: 0 <= i < |part| ==> part[i].layer == layer
  }

  ghost predicate Quiet(part: seq<Record>) {
    forall i :: 0 <= i < |part| ==>
      !IsReduction(part[i]) && !part[i].kind.AttentionContext? && !part[i].op.OProjection? && !part[i].op.KvCacheTileRead?
  }

  ghost predicate Idle(part: seq<Record>) {
    forall i :: 0 <= i < |part| ==> !IsMac(part[i])
  }

  lemma {:induction false} AfterKeeps(env: Outputs, rs: seq<Record>, ports: bool)
    requires Sound(env, rs, ports)
    ensures forall k :: k in env ==> k in After(env, rs) && After(env, rs)[k] == env[k]
    decreases |rs|
  {
    if rs != [] {
      AfterKeeps(env[rs[0].id := rs[0].outputs], rs[1..], ports);
    }
  }

  lemma {:induction false} AfterSupplies(env: Outputs, rs: seq<Record>, i: nat, ports: bool)
    requires Sound(env, rs, ports) && i < |rs|
    ensures rs[i].id in After(env, rs) && After(env, rs)[rs[i].id] == rs[i].outputs
    decreases |rs|
  {
    var next := env[rs[0].id := rs[0].outputs];
    if i == 0 {
      AfterKeeps(next, rs[1..], ports);
    } else {
      AfterSupplies(next, rs[1..], i - 1, ports);
    }
  }

  lemma {:induction false} Join(rs: seq<Record>, part: seq<Record>, next: int, next2: int, layer: nat, ports: bool)
    requires Trace(rs, next, ports) && Sound(Env(rs), part, ports) && next <= next2
    requires forall i :: 0 <= i < |part| ==> 0 <= part[i].id < next2 && part[i].layer == layer
    ensures Extended(rs, part, next, next2, layer, ports)
    ensures Env(rs + part) == After(Env(rs), part)
  {
    Concat(map[], rs, part, ports);
    AfterKeeps(Env(rs), part, ports);
    forall k | k in Env(rs + part) ensures 0 <= k < next2 {
      AfterHolds(Env(rs), part, k);
    }
    forall id, t | Has(rs, id, t) ensures Has(rs + part, id, t) {
      assert Env(rs + part)[id] == Env(rs)[id];
    }
  }

  lemma {:induction false} ExtendTwice(rs: seq<Record>, a: seq<Record>, b: seq<Record>, next: int, n1: int, n2: int, layer: nat, ports: bool)
    requires Extended(rs, a, next, n1, layer, ports) && Extended(rs + a, b, n1, n2, layer, ports)
    ensures Extended(rs, a + b, next, n2, layer, ports)
  {
    assert rs + (a + b) == (rs + a) + b;
    forall id, t | Has(rs, id, t) ensures Has(rs + (a + b), id, t) {
      assert Has(rs + a, id, t);
    }
  }

  lemma {:induction false} QuietConcat(a: seq<Record>, b: seq<Record>)
    requires Quiet(a) && Quiet(b)
    ensures Quiet(a + b) && Requests(a + b) == Requests(a) + Requests(b)
  {
    TotalConcat(MacRequests, a, b);
  }

  // ---- placing a block ----

  /** Renumbers a block from `next` on and retargets it to the layer. */
  method Install(block: seq<Record>, next: int, layer: nat, ghost ports: bool) returns (placed: seq<Record>, next2: int)
    requires Numbered(block) && Sound(map[], block, ports)
    ensures placed == Placed(block, next, layer) && next2 == next + |block|
  {
    var renumbered;
    renumbered, next2 := Renumber(block, next);
    placed := [];
    for i := 0 to |renumbered|
      invariant |placed| == i
      invariant forall k :: 0 <= k < i ==> placed[k] == Placed(block, next, layer)[k]
    {
      RenumberShifts(block, next, ports, i);
      placed := placed + [Retarget(renumbered[i], layer)];
    }
  }

  lemma {:induction false} InstalledSound(rs: seq<Record>, next: int, block: seq<Record>, layer: nat, ports: bool, open: bool)
    requires Trace(rs, next, ports) && Numbered(block) && Sound(map[], block, open)
    ensures Sound(Env(rs), Placed(block, next, layer), open)
    ensures forall i :: 0 <= i < |block| ==> Placed(block, next, layer)[i].id == next + i
  {
    PlacedSound(map[], Env(rs), block, open, next, layer);
  }

  /** A block without ports is placed as it is. */
  lemma {:induction false} ClosedBlockJoins(rs: seq<Record>, next: int, block: seq<Record>, layer: nat, ports: bool)
    requires Trace(rs, next, ports) && Numbered(block) && Sound(map[], block, ports)
    requires forall i :: 0 <= i < |block| ==> block[i].layer == 0
    ensures Extended(rs, Placed(block, next, layer), next, next + |block|, layer, ports)
    ensures Sound(Env(rs), Placed(block, next, layer), ports)
    ensures Env(rs + Placed(block, next, layer)) == After(Env(rs), Placed(block, next, layer))
    ensures forall i :: 0 <= i < |block| ==> Placed(block, next, layer)[i].id == next + i
  {
    InstalledSound(rs, next, block, layer, ports, ports);
    Join(rs, Placed(block, next, layer), next, next + |block|, layer, ports);
  }

  /** A placed block whose open inputs have been relinked. */
  lemma {:induction false} RelinkedBlockJoins(rs: seq<Record>, next: int, block: seq<Record>, linked: seq<Record>, layer: nat, ports: bool)
    requires Trace(rs, next, ports) && Numbered(block) && Sound(map[], block, true)
    requires |linked| == |block|
    requires forall i :: 0 <= i < |block| ==>
      linked[i].layer == layer && Rewired(Env(rs), Placed(block, next, layer)[i], linked[i], ports)
    ensures Extended(rs, linked, next, next + |block|, layer, ports)
    ensures Sound(Env(rs), linked, ports)
    ensures Env(rs + linked) == After(Env(rs), linked)
  {
    InstalledSound(rs, next, block, layer, ports, true);
    RewiredSound(Env(rs), Env(rs), Placed(block, next, layer), linked, ports);
    forall i | 0 <= i < |linked| ensures 0 <= linked[i].id < next + |block| {
      assert Rewired(Env(rs), Placed(block, next, layer)[i], linked[i], ports);
      assert Placed(block, next, layer)[i].id == next + i;
    }
    Join(rs, linked, next, next + |block|, layer, ports);
  }

  // ---- markers ----

  /** A barrier or drain record, renumbered. */
  method AddMarker(ghost rs: seq<Record>, next: int, layer: nat, kind: RecordKind, op: Op, ghost ports: bool)
      returns (part: seq<Record>, next2: int)
    requires Trace(rs, next, ports)
    requires kind.Barrier? || kind.Drain?
    requires op.LayerStart? || op.LayerTransition? || op.FinalDrain?
    ensures Extended(rs, part, next, next2, layer, ports) && Quiet(part) && Requests(part) == 0 && Idle(part)
  {
    var block := [Record(0, kind, layer, op, [], [], [], 1)];
    part, next2 := Renumber(block, next);
    NumberedIdMap(block, next);
    assert part[0] == MapIds(block[0], IdMap(block, next));
    assert part == [Record(next, kind, layer, op, [], [], [], 1)];
    MarkerFollows(Env(rs), part, ports);
    Join(rs, part, next, next2, layer, ports);
  }

  lemma {:induction false} MarkerFollows(env: Outputs, part: seq<Record>, ports: bool)
    requires |part| == 1 && part[0].deps == [] && part[0].inputs == [] && part[0].outputs == []
    requires (part[0].kind.Barrier? || part[0].kind.Drain?) && forall k :: k in env ==> k < part[0].id
    ensures Sound(env, part, ports) && Requests(part) == 0
  {
    assert part[1..] == [] && part[..|part| - 1] == [];
    assert Follows(env, part[0], ports);
    assert Total(MacRequests, part[..|part| - 1]) == 0;
  }
}
