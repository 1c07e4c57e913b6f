/** What a list of records computes.  A product nobody reads is spare; a record reaches
    what it depends on; and every tensor has a value, an expression over the tensors that
    come from outside the list. */
module DataFlow {
  import opened Records

  // ---- products and who reads them ----

  /** An output of a record. */
  type Product = (int, Tensor)

  /** The record depends on the maker of the product and reads it. */
  predicate Takes(r: Record, p: Product) {
    p.0 in r.deps && p.1 in r.inputs
  }

  predicate Makes(r: Record, p: Product) {
    p.0 == r.id && p.1 in r.outputs
  }

  /** No record after its maker takes the product. */
  predicate Spare(rs: seq<Record>, p: Product)
    decreases |rs|
  {
    rs != []
    && (Makes(rs[|rs| - 1], p) || (Spare(rs[..|rs| - 1], p) && !Takes(rs[|rs| - 1], p)))
  }

  /** The products left over grow by those of `made` at most, and lose those of `taken`. */
  ghost predicate Leaves(before: seq<Record>, after: seq<Record>, taken: set<Product>, made: set<Product>) {
    forall p {:trigger Spare(after, p)} :: Spare(after, p) ==> (Spare(before, p) && p !in taken) || p in made
  }

  lemma {:induction false} SpareSnoc(rs: seq<Record>, r: Record, taken: set<Product>, made: set<Product>)
    requires forall p :: p in taken ==> Takes(r, p)
    requires forall p :: Makes(r, p) ==> p in made
    ensures Leaves(rs, rs + [r], taken, made)
  {
    assert (rs + [r])[..|rs|] == rs;
  }

  /** Record `j` depends on record `i` and reads its output `t`. */
  predicate Reads(rs: seq<Record>, j: nat, i: nat, t: Tensor)
    requires i < |rs| && j < |rs|
  {
    rs[i].id in rs[j].deps && t in rs[j].inputs
  }

  ghost predicate ReadLater(rs: seq<Record>, i: nat, t: Tensor)
    requires i < |rs|
  {
    exists j: nat :: i < j < |rs| && Reads(rs, j, i, t)
  }

  /** A product that is not spare is read by a later record that depends on its maker. */
  lemma {:induction false} SpareOrRead(rs: seq<Record>, i: nat, t: Tensor)
    requires i < |rs| && t in rs[i].outputs
    ensures Spare(rs, (rs[i].id, t)) || ReadLater(rs, i, t)
    decreases |rs|
  {
    var n := |rs| - 1;
    if i < n {
      SpareOrRead(rs[..n], i, t);
      if !Spare(rs[..n], (rs[i].id, t)) {
        var j: nat :| i < j < n && Reads(rs[..n], j, i, t);
        assert Reads(rs, j, i, t);
      } else if Takes(rs[n], (rs[i].id, t)) {
        assert Reads(rs, n, i, t);
      }
    }
  }

  // ---- dependency paths ----

  ghost predicate DependsOn(rs: seq<Record>, x: int, y: int) {
    exists i :: 0 <= i < |rs| && rs[i].id == x && y in rs[i].deps
  }

  ghost predicate IsPath(rs: seq<Record>, path: seq<int>, a: int, b: int) {
    && |path| >= 1 && path[0] == a && path[|path| - 1] == b
    && forall k :: 0 <= k < |path| - 1 ==> DependsOn(rs, path[k], path[k + 1])
  }

  /** Record `a` waits, directly or not, for record `b`. */
  ghost predicate Reaches(rs: seq<Record>, a: int, b: int) {
    exists path :: IsPath(rs, path, a, b)
  }

  lemma {:induction false} ReachesItself(rs: seq<Record>, a: int)
    ensures Reaches(rs, a, a)
  {
    assert IsPath(rs, [a], a, a);
  }

  lemma {:induction false} ReachesThrough(rs: seq<Record>, a: int, b: int, c: int)
    requires Reaches(rs, a, b) && Reaches(rs, b, c)
    ensures Reaches(rs, a, c)
  {
    var p :| IsPath(rs, p, a, b);
    var q :| IsPath(rs, q, b, c);
    var path := p + q[1..];
    forall k | 0 <= k < |path| - 1
      ensures DependsOn(rs, path[k], path[k + 1])
    {
      if k < |p| - 1 {
        assert path[k] == p[k] && path[k + 1] == p[k + 1];
      } else {
        assert path[k] == q[k - (|p| - 1)] && path[k + 1] == q[k - (|p| - 1) + 1];
      }
    }
    assert IsPath(rs, path, a, c);
  }

  lemma {:induction false} ReachesNext(rs: seq<Record>, a: int, b: int)
    requires DependsOn(rs, a, b)
    ensures Reaches(rs, a, b)
  {
    assert IsPath(rs, [a, b], a, b);
  }

  lemma {:induction false} ReachesBeyond(rs: seq<Record>, a: int, b: int, c: int)
    requires Reaches(rs, a, b) && DependsOn(rs, b, c)
    ensures Reaches(rs, a, c)
  {
    ReachesNext(rs, b, c);
    ReachesThrough(rs, a, b, c);
  }

  /** More records, more paths. */
  lemma {:induction false} ReachesMore(rs: seq<Record>, more: seq<Record>, a: int, b: int)
    requires Reaches(rs, a, b) && forall x, y :: DependsOn(rs, x, y) ==> DependsOn(more, x, y)
    ensures Reaches(more, a, b)
  {
    var p :| IsPath(rs, p, a, b);
    assert IsPath(more, p, a, b);
  }

  /** `more` holds the records of a block in their place. */
  ghost predicate DependsShifted(rs: seq<Record>, more: seq<Record>, start: int) {
    forall x, y {:trigger DependsOn(rs, x, y)} :: DependsOn(rs, x, y) ==> DependsOn(more, x + start, y + start)
  }

  lemma {:induction false} ReachesShifted(rs: seq<Record>, more: seq<Record>, a: int, b: int, start: int)
    requires Reaches(rs, a, b) && DependsShifted(rs, more, start)
    ensures Reaches(more, a + start, b + start)
  {
    var p :| IsPath(rs, p, a, b);
    var q := seq(|p|, k requires 0 <= k < |p| => p[k] + start);
    forall k | 0 <= k < |q| - 1
      ensures DependsOn(more, q[k], q[k + 1])
    {
      assert DependsOn(rs, p[k], p[k + 1]);
    }
    assert IsPath(more, q, a + start, b + start);
  }

  /** A record has outputs, and its tensors belong to its layer. */
  predicate OwnLayer(r: Record) {
    r.outputs != [] && (forall t :: t in r.outputs ==> t.layer == r.layer) && (forall t :: t in r.inputs ==> t.layer == r.layer)
  }

  /** Whoever follows what a record produces comes to the maker of a spare product of the
      same layer. */
  lemma {:induction false} LeadsToSpare(rs: seq<Record>, i: nat) returns (p: Product)
    requires i < |rs| && forall k :: 0 <= k < |rs| ==> OwnLayer(rs[k])
    ensures Spare(rs, p) && p.1.layer == rs[i].layer && Reaches(rs, p.0, rs[i].id)
    decreases |rs| - i
  {
    var t := rs[i].outputs[0];
    SpareOrRead(rs, i, t);
    if Spare(rs, (rs[i].id, t)) {
      p := (rs[i].id, t);
      ReachesItself(rs, rs[i].id);
    } else {
      var j: nat :| i < j < |rs| && Reads(rs, j, i, t);
      p := LeadsToSpare(rs, j);
      assert DependsOn(rs, rs[j].id, rs[i].id);
      ReachesBeyond(rs, p.0, rs[j].id, rs[i].id);
    }
  }

  // ---- values ----

  /** What a tensor holds, in terms of what comes from outside. */
  datatype Math =
    | Given(name: Name)
    | Joined(parts: seq<Math>)
    | Computed(op: Op, args: seq<Math>)
    | Share(k: nat, of: Math)

  /** Records that hand on what they read. */
  predicate Moves(kind: RecordKind) {
    kind.PIMDataMove? || kind.PIMOperandResidency? || kind.HostRead? || kind.HostWrite?
  }

  /** Where a block takes in what the layer assembly connects. */
  predicate Enters(op: Op) {
    op.HiddenTileSetup? || op.RouterInputSetup? || op.QOperandResidency? || op.PrefillTileResidency?
  }

  /** Output `k` of a record that reads `args`: softmax has an output for each score. */
  function Outcome(kind: RecordKind, op: Op, k: nat, args: seq<Math>): Math {
    if Moves(kind) && |args| == 1 && !Enters(op) then args[0]
    else if kind.PIMOperandReuse? then Joined(args)
    else if kind.AttentionSoftmax? then Share(k, Computed(op, args))
    else Computed(op, args)
  }

  /** Output `t` of record `id` may be computed as `e`: from what its dependencies compute
      and from what no record of a block supplies. */
  ghost predicate Means(rs: seq<Record>, id: int, t: Tensor, e: Math)
    decreases id, 2
  {
    exists i: nat, k: nat, args :: Computes(rs, id, i, k, t, args) && e == Outcome(rs[i].kind, rs[i].op, k, args)
  }

  /** Record `i` has the id, `t` as its output `k`, and reads `args`. */
  ghost predicate Computes(rs: seq<Record>, id: int, i: nat, k: nat, t: Tensor, args: seq<Math>)
    decreases id, 1
  {
    && i < |rs| && rs[i].id == id && k < |rs[i].outputs| && rs[i].outputs[k] == t && |args| == |rs[i].inputs|
    && forall j: nat :: j < |args| ==> Finds(rs, id, rs[i].deps, rs[i].inputs[j], args[j])
  }

  /** What a record with the id and the dependencies finds when it reads `t`. */
  ghost predicate Finds(rs: seq<Record>, id: int, deps: seq<int>, t: Tensor, e: Math)
    decreases id, 0
  {
    || ((Leaf(t.name) || Port(t.name)) && e == Given(t.name))
    || exists d :: 0 <= d < id && d in deps && Means(rs, d, t, e)
  }

  lemma {:induction false} MeansMore(rs: seq<Record>, more: seq<Record>, id: int, t: Tensor, e: Math)
    requires rs <= more && Means(rs, id, t, e)
    ensures Means(more, id, t, e)
    decreases id, 1
  {
    var i: nat, k: nat, args :| Computes(rs, id, i, k, t, args) && e == Outcome(rs[i].kind, rs[i].op, k, args);
    forall j: nat | j < |args|
      ensures Finds(more, id, rs[i].deps, rs[i].inputs[j], args[j])
    {
      FindsMore(rs, more, id, rs[i].deps, rs[i].inputs[j], args[j]);
    }
    assert Computes(more, id, i, k, t, args);
  }

  lemma {:induction false} FindsMore(rs: seq<Record>, more: seq<Record>, id: int, deps: seq<int>, t: Tensor, e: Math)
    requires rs <= more && Finds(rs, id, deps, t, e)
    ensures Finds(more, id, deps, t, e)
    decreases id, 0
  {
    if !((Leaf(t.name) || Port(t.name)) && e == Given(t.name)) {
      var d :| 0 <= d < id && d in deps && Means(rs, d, t, e);
      MeansMore(rs, more, d, t, e);
    }
  }

  /** The value of a record that is appended. */
  lemma {:induction false} SnocMeans(rs: seq<Record>, r: Record, k: nat, args: seq<Math>)
    requires k < |r.outputs| && |args| == |r.inputs|
    requires forall j: nat :: j < |args| ==> Finds(rs, r.id, r.deps, r.inputs[j], args[j])
    ensures Means(rs + [r], r.id, r.outputs[k], Outcome(r.kind, r.op, k, args))
  {
    var more := rs + [r];
    assert rs <= more && more[|rs|] == r;
    forall j: nat | j < |args|
      ensures Finds(more, r.id, r.deps, r.inputs[j], args[j])
    {
      FindsMore(rs, more, r.id, r.deps, r.inputs[j], args[j]);
    }
    assert Computes(more, r.id, |rs|, k, r.outputs[k], args);
  }

  // ---- what a value is made of ----

  /** The expression holds a result of the operation. */
  predicate Mentions(e: Math, op: Op)
    decreases e
  {
    match e
    case Given(n) => false
    case Joined(parts) => exists i :: 0 <= i < |parts| && Mentions(parts[i], op)
    case Share(k, of) => Mentions(of, op)
    case Computed(o, args) => o == op || exists i :: 0 <= i < |args| && Mentions(args[i], op)
  }

  ghost predicate ReachesOp(rs: seq<Record>, id: int, op: Op) {
    exists i :: 0 <= i < |rs| && rs[i].op == op && Reaches(rs, id, rs[i].id)
  }

  lemma {:induction false} OutcomeMentions(kind: RecordKind, o: Op, k: nat, args: seq<Math>, op: Op)
    requires Mentions(Outcome(kind, o, k, args), op) && o != op
    ensures exists j :: 0 <= j < |args| && Mentions(args[j], op)
  {
  }

  /** A record whose value holds a result of an operation waits for a record of it. */
  lemma {:induction false} MentionReached(rs: seq<Record>, id: int, t: Tensor, e: Math, op: Op)
    requires Means(rs, id, t, e) && Mentions(e, op)
    ensures ReachesOp(rs, id, op)
    decreases id
  {
    var i: nat, k: nat, args :| Computes(rs, id, i, k, t, args) && e == Outcome(rs[i].kind, rs[i].op, k, args);
    if rs[i].op == op {
      ReachesItself(rs, id);
    } else {
      OutcomeMentions(rs[i].kind, rs[i].op, k, args, op);
      var j: nat :| j < |args| && Mentions(args[j], op);
      assert Finds(rs, id, rs[i].deps, rs[i].inputs[j], args[j]);
      var d :| 0 <= d < id && d in rs[i].deps && Means(rs, d, rs[i].inputs[j], args[j]);
      MentionReached(rs, d, rs[i].inputs[j], args[j], op);
      var n :| 0 <= n < |rs| && rs[n].op == op && Reaches(rs, d, rs[n].id);
      assert DependsOn(rs, id, d);
      ReachesNext(rs, id, d);
      ReachesThrough(rs, id, d, rs[n].id);
    }
  }
}
