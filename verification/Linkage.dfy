/** What the layer assembly does to the values of a block: where the block takes something
    in, it gets what the layer connects there, and everything else is computed as before. */
module Linkage {
  import opened DataFlow
  import opened Records
  import opened Relinking
  import opened Results

  /** The values that a layer connects to a block, if it connects any. */
  datatype Wiring = Wiring(query: Option<Math>, key: Option<Math>, value: Option<Math>, hidden: Option<Math>) {
    function For(op: Op): Option<Math> {
      match op
      case QOperandResidency => query
      case PrefillTileResidency(isKey) => if isKey then key else value
      case HiddenTileSetup => hidden
      case RouterInputSetup => hidden
      case _ => None
    }
  }

  /** `e` with the connected values in place. */
  function Linked(e: Math, w: Wiring): Math
    decreases e
  {
    match e
    case Given(n) => e
    case Joined(parts) => Joined(seq(|parts|, i requires 0 <= i < |parts| => Linked(parts[i], w)))
    case Share(k, of) => Share(k, Linked(of, w))
    case Computed(op, args) =>
      if w.For(op).Some? then Computed(op, [w.For(op).value])
      else Computed(op, seq(|args|, i requires 0 <= i < |args| => Linked(args[i], w)))
  }

  function LinkedAll(args: seq<Math>, w: Wiring): (r: seq<Math>)
    ensures |r| == |args| && forall i :: 0 <= i < |args| ==> r[i] == Linked(args[i], w)
  {
    seq(|args|, i requires 0 <= i < |args| => Linked(args[i], w))
  }

  lemma {:induction false} OutcomeLinked(kind: RecordKind, op: Op, k: nat, args: seq<Math>, w: Wiring)
    requires w.For(op).None?
    ensures Linked(Outcome(kind, op, k, args), w) == Outcome(kind, op, k, LinkedAll(args, w))
  {
  }

  /** A placed record that takes in the connected value. */
  ghost predicate Connected(all: seq<Record>, r: Record, p: Record, x: Math) {
    && |p.inputs| == 1 && !r.kind.PIMOperandReuse? && !r.kind.AttentionSoftmax? && Enters(r.op)
    && Finds(all, p.id, p.deps, p.inputs[0], x)
  }

  /** A placed record that reads what it read in the block. */
  ghost predicate Unchanged(r: Record, p: Record, start: int, layer: nat) {
    p.inputs == RetargetTensors(r.inputs, layer) && forall d :: d in r.deps ==> d + start in p.deps
  }

  /** A record in its place, with its connection if it has one. */
  ghost predicate Wired(all: seq<Record>, r: Record, p: Record, start: int, layer: nat, w: Wiring) {
    && p.id == r.id + start && p.kind == r.kind && p.op == r.op && p.outputs == RetargetTensors(r.outputs, layer)
    && (if w.For(r.op).Some? then Connected(all, r, p, w.For(r.op).value) else Unchanged(r, p, start, layer))
  }

  ghost predicate InPlace(all: seq<Record>, r: Record, start: int, layer: nat, w: Wiring) {
    exists j: nat :: j < |all| && Wired(all, r, all[j], start, layer, w)
  }

  /** A placed record computes its outputs from what it finds. */
  lemma {:induction false} PlacedComputes(all: seq<Record>, j: nat, k: nat, t: Tensor, args: seq<Math>)
    requires j < |all| && k < |all[j].outputs| && all[j].outputs[k] == t && |args| == |all[j].inputs|
    requires forall m: nat :: m < |args| ==> Finds(all, all[j].id, all[j].deps, all[j].inputs[m], args[m])
    ensures Means(all, all[j].id, t, Outcome(all[j].kind, all[j].op, k, args))
  {
    assert Computes(all, all[j].id, j, k, t, args);
  }

  /** A block whose records are all in place computes in its place what it computed on its
      own, with the connected values. */
  lemma {:induction false} Carried(block: seq<Record>, all: seq<Record>, start: int, layer: nat, w: Wiring, x: int, t: Tensor, e: Math)
    requires start >= 0 && Means(block, x, t, e)
    requires forall i: nat :: i < |block| ==> InPlace(all, block[i], start, layer, w)
    ensures Means(all, x + start, RetargetTensor(t, layer), Linked(e, w))
    decreases x, 1
  {
    var i: nat, k: nat, args :| Computes(block, x, i, k, t, args) && e == Outcome(block[i].kind, block[i].op, k, args);
    var j: nat :| j < |all| && Wired(all, block[i], all[j], start, layer, w);
    var p := all[j];
    if w.For(block[i].op).Some? {
      PlacedComputes(all, j, k, RetargetTensor(t, layer), [w.For(block[i].op).value]);
    } else {
      forall m: nat | m < |args|
        ensures Finds(all, p.id, p.deps, p.inputs[m], Linked(args[m], w))
      {
        FindsCarried(block, all, start, layer, w, x, block[i].deps, p.deps, block[i].inputs[m], args[m]);
      }
      PlacedComputes(all, j, k, RetargetTensor(t, layer), LinkedAll(args, w));
      OutcomeLinked(block[i].kind, block[i].op, k, args, w);
    }
  }

  lemma {:induction false} FindsCarried(block: seq<Record>, all: seq<Record>, start: int, layer: nat, w: Wiring, x: int, deps: seq<int>,
                                        placed: seq<int>, t: Tensor, e: Math)
    requires start >= 0 && Finds(block, x, deps, t, e) && forall d :: d in deps ==> d + start in placed
    requires forall i: nat :: i < |block| ==> InPlace(all, block[i], start, layer, w)
    ensures Finds(all, x + start, placed, RetargetTensor(t, layer), Linked(e, w))
    decreases x, 0
  {
    if !((Leaf(t.name) || Port(t.name)) && e == Given(t.name)) {
      var d :| 0 <= d < x && d in deps && Means(block, d, t, e);
      Carried(block, all, start, layer, w, d, t, e);
    }
  }

  // ---- one query residency for all heads ----

  /** Query operands come from query residencies and go to scores, as their first input. */
  ghost predicate QueriesApart(r: Record) {
    && (r.op.QOperandResidency? ==> IsQueryResidency(r))
    && (if IsQueryResidency(r) then forall t :: t in r.outputs ==> QueryOperand(t.name)
        else forall t :: t in r.outputs ==> !QueryOperand(t.name))
    && (if r.kind.AttentionScore?
        then |r.inputs| >= 1 && QueryOperand(r.inputs[0].name) && forall m :: 1 <= m < |r.inputs| ==> !QueryOperand(r.inputs[m].name)
        else forall t :: t in r.inputs ==> !QueryOperand(t.name))
  }

  /** A score in its place reads the resident query `q` and otherwise what it read. */
  ghost predicate ReadsQuery(all: seq<Record>, r: Record, p: Record, start: int, layer: nat, q: Math) {
    && |p.inputs| == |r.inputs| >= 1 && Finds(all, p.id, p.deps, p.inputs[0], Computed(QOperandResidency, [q]))
    && forall m :: 1 <= m < |r.inputs| ==> p.inputs[m] == RetargetTensor(r.inputs[m], layer)
  }

  /** A kept record in its place: its dependencies, but for the query residencies. */
  ghost predicate KeptInPlace(all: seq<Record>, r: Record, p: Record, start: int, layer: nat, q: Math, queries: set<int>) {
    && p.id == r.id + start && p.kind == r.kind && p.op == r.op && p.outputs == RetargetTensors(r.outputs, layer)
    && (if r.kind.AttentionScore? then ReadsQuery(all, r, p, start, layer, q) else p.inputs == RetargetTensors(r.inputs, layer))
    && forall d :: d in r.deps && d !in queries ==> d + start in p.deps
  }

  ghost predicate StaysInPlace(all: seq<Record>, r: Record, start: int, layer: nat, q: Math, queries: set<int>) {
    exists j: nat :: j < |all| && KeptInPlace(all, r, all[j], start, layer, q, queries)
  }

  /** All records but the query residencies are in place. */
  ghost predicate DedupedInPlace(block: seq<Record>, all: seq<Record>, start: int, layer: nat, q: Math, queries: set<int>) {
    forall i: nat :: i < |block| ==>
      && QueriesApart(block[i]) && (IsQueryResidency(block[i]) <==> block[i].id in queries)
      && (IsQueryResidency(block[i]) || StaysInPlace(all, block[i], start, layer, q, queries))
  }

  function QueryWiring(q: Math): Wiring {
    Wiring(Some(q), None, None, None)
  }

  /** A query operand is the query, resident. */
  lemma {:induction false} QueryFound(block: seq<Record>, all: seq<Record>, start: int, layer: nat, q: Math, queries: set<int>, x: int,
                                      deps: seq<int>, t: Tensor, e: Math)
    requires DedupedInPlace(block, all, start, layer, q, queries) && Finds(block, x, deps, t, e) && QueryOperand(t.name)
    ensures Linked(e, QueryWiring(q)) == Computed(QOperandResidency, [q])
  {
    var d :| 0 <= d < x && d in deps && Means(block, d, t, e);
    var i: nat, k: nat, args :| Computes(block, d, i, k, t, args) && e == Outcome(block[i].kind, block[i].op, k, args);
    assert QueriesApart(block[i]) && t in block[i].outputs;
  }

  /** So a deduplicated block computes what it computed, with the layer's query for every
      head's. */
  lemma {:induction false} CarriedDeduped(block: seq<Record>, all: seq<Record>, start: int, layer: nat, q: Math, queries: set<int>,
                                          x: int, t: Tensor, e: Math)
    requires start >= 0 && Means(block, x, t, e) && !QueryOperand(t.name)
    requires DedupedInPlace(block, all, start, layer, q, queries)
    ensures Means(all, x + start, RetargetTensor(t, layer), Linked(e, QueryWiring(q)))
    decreases x, 1
  {
    var i: nat, k: nat, args :| Computes(block, x, i, k, t, args) && e == Outcome(block[i].kind, block[i].op, k, args);
    assert t in block[i].outputs && QueriesApart(block[i]);
    var j: nat :| j < |all| && KeptInPlace(all, block[i], all[j], start, layer, q, queries);
    InputsCarried(block, all, start, layer, q, queries, x, i, j, args);
    PlacedComputes(all, j, k, RetargetTensor(t, layer), LinkedAll(args, QueryWiring(q)));
    OutcomeLinked(block[i].kind, block[i].op, k, args, QueryWiring(q));
  }

  lemma {:induction false} InputsCarried(block: seq<Record>, all: seq<Record>, start: int, layer: nat, q: Math, queries: set<int>, x: int,
                                         i: nat, j: nat, args: seq<Math>)
    requires start >= 0 && DedupedInPlace(block, all, start, layer, q, queries) && i < |block| && j < |all| && block[i].id == x
    requires KeptInPlace(all, block[i], all[j], start, layer, q, queries) && |args| == |block[i].inputs|
    requires forall m: nat :: m < |args| ==> Finds(block, x, block[i].deps, block[i].inputs[m], args[m])
    ensures |all[j].inputs| == |args|
    ensures forall m: nat :: m < |args| ==> Finds(all, all[j].id, all[j].deps, all[j].inputs[m], LinkedAll(args, QueryWiring(q))[m])
    decreases x, 0
  {
    var p := all[j];
    assert QueriesApart(block[i]);
    forall m: nat | m < |args|
      ensures Finds(all, p.id, p.deps, p.inputs[m], LinkedAll(args, QueryWiring(q))[m])
    {
      var t, e := block[i].inputs[m], args[m];
      if QueryOperand(t.name) {
        assert t in block[i].inputs;
        QueryFound(block, all, start, layer, q, queries, x, block[i].deps, t, e);
      } else if !((Leaf(t.name) || Port(t.name)) && e == Given(t.name)) {
        var d :| 0 <= d < x && d in block[i].deps && Means(block, d, t, e);
        NotAQuery(block, all, start, layer, q, queries, d, t, e);
        CarriedDeduped(block, all, start, layer, q, queries, d, t, e);
      }
    }
  }

  lemma {:induction false} NotAQuery(block: seq<Record>, all: seq<Record>, start: int, layer: nat, q: Math, queries: set<int>, d: int,
                                     t: Tensor, e: Math)
    requires DedupedInPlace(block, all, start, layer, q, queries) && Means(block, d, t, e) && !QueryOperand(t.name)
    ensures d !in queries
  {
    var i: nat, k: nat, args :| Computes(block, d, i, k, t, args) && e == Outcome(block[i].kind, block[i].op, k, args);
    assert t in block[i].outputs && QueriesApart(block[i]);
  }
}
