/** `_host_address_chunks`: a host stream of `count` equally spaced logical addresses is
    cut into (base, stride, repeat) chunks of concrete byte addresses. */
module HostStream {
  import opened Addressing
  import opened Division
  import opened Results
  import opened Sequences

  datatype Policy = StrictBytes | BoundedSurrogate | UnknownPolicy

  datatype Chunk = Chunk(base: int, stride: int, repeat: int)

  /** The addresses a chunk stands for when it is replayed. */
  function Expand(c: Chunk): seq<int> {
    if c.repeat <= 0 then [] else seq(c.repeat, j => c.base + j * c.stride)
  }

  function ExpandAll(cs: seq<Chunk>): seq<int> {
    if |cs| == 0 then [] else Expand(cs[0]) + ExpandAll(cs[1..])
  }

  /** Capacity of the device in transactions. */
  function Transactions(layout: Layout): int
    requires layout.txBytes > 0
  {
    Quot(layout.capacityBytes, layout.txBytes)
  }

  predicate UsableLayout(layout: Layout) {
    && layout.prefetch > 0 && layout.txBytes > 0 && layout.capacityBytes > 0
    && Rem(layout.capacityBytes, layout.txBytes) == 0
  }

  lemma TransactionsPositive(layout: Layout)
    requires UsableLayout(layout)
    ensures Transactions(layout) >= 1
    ensures Transactions(layout) * layout.txBytes == layout.capacityBytes
  {
    QuotRem(layout.capacityBytes, layout.txBytes);
    if Transactions(layout) <= 0 {
      MulMonotone(Transactions(layout), 0, layout.txBytes);
      assert false;
    }
  }

  /** Where the bounded policy puts a logical address: one transaction per prefetch
      unit, wrapped into the device. */
  function Token(logical: int, layout: Layout): int
    requires UsableLayout(layout)
  {
    TransactionsPositive(layout);
    Rem(Quot(logical, layout.prefetch), Transactions(layout)) * layout.txBytes
  }

  /** The stream the semantic record asks for: literal addresses, or their tokens. */
  function Stream(base: int, stride: int, count: nat, policy: Policy, layout: Option<Layout>): (s: seq<int>)
    requires Applicable(policy, layout)
    ensures |s| == count
  {
    if policy == StrictBytes then seq(count, j => base + j * stride)
    else seq(count, j => TokenAt(base, stride, j, layout.value))
  }

  // ----- specification of the two loops

  function StrictChunks(base: int, stride: int, offset: int, remaining: int, maxRepeat: int): seq<Chunk>
    requires maxRepeat > 0
    decreases remaining
  {
    if remaining <= 0 then []
    else
      var n := Min(maxRepeat, remaining);
      [Chunk(base + offset * stride, if n > 1 then stride else 0, n)]
      + StrictChunks(base, stride, offset + n, remaining - n, maxRepeat)
  }

  function BoundedStep(stride: int, layout: Layout): int
    requires UsableLayout(layout)
  {
    TransactionsPositive(layout);
    Rem(Quot(stride, layout.prefetch), Transactions(layout))
  }

  /** The chunk at logical offset `offset`; it ends at the split limit or the wrap. */
  function BoundedChunk(base: int, stride: int, offset: int, remaining: int, maxRepeat: int, layout: Layout): (c: Chunk)
    requires maxRepeat > 0 && remaining > 0 && UsableLayout(layout)
    ensures 1 <= c.repeat <= remaining && c.repeat <= maxRepeat
  {
    TransactionsPositive(layout);
    var start := Rem(Quot(base + offset * stride, layout.prefetch), Transactions(layout));
    var step := BoundedStep(stride, layout);
    var n := if step == 0 then Min(maxRepeat, remaining)
             else Min(Min(maxRepeat, remaining), Quot(Transactions(layout) - 1 - start, step) + 1);
    Chunk(start * layout.txBytes, if n > 1 then step * layout.txBytes else 0, n)
  }

  function BoundedChunks(
    base: int, stride: int, offset: int, remaining: int, maxRepeat: int, layout: Layout): seq<Chunk>
    requires maxRepeat > 0 && UsableLayout(layout)
    decreases remaining
  {
    if remaining <= 0 then []
    else
      var c := BoundedChunk(base, stride, offset, remaining, maxRepeat, layout);
      [c] + BoundedChunks(base, stride, offset + c.repeat, remaining - c.repeat, maxRepeat, layout)
  }

  function HostChunks(
    base: int, stride: int, count: int, maxRepeat: int, layout: Option<Layout>, policy: Policy)
    : Result<seq<Chunk>>
  {
    if count <= 0 || maxRepeat <= 0 then Err(BadArgument)
    else if policy == UnknownPolicy then Err(UnsupportedPolicy)
    else if policy == StrictBytes then Ok(StrictChunks(base, stride, 0, count, maxRepeat))
    else if layout.None? || !UsableLayout(layout.value) then Err(BadLayout)
    else if Rem(base, layout.value.prefetch) != 0 || Rem(stride, layout.value.prefetch) != 0 then Err(Misaligned)
    else Ok(BoundedChunks(base, stride, 0, count, maxRepeat, layout.value))
  }

  lemma StepChunks(
    base: int, stride: int, offset: int, remaining: int, maxRepeat: int, layout: Layout, done: seq<Chunk>)
    requires maxRepeat > 0 && remaining > 0 && UsableLayout(layout)
    ensures var c := BoundedChunk(base, stride, offset, remaining, maxRepeat, layout);
            done + BoundedChunks(base, stride, offset, remaining, maxRepeat, layout)
            == (done + [c]) + BoundedChunks(base, stride, offset + c.repeat, remaining - c.repeat, maxRepeat, layout)
  {
  }

  method StrictStream(base: int, stride: int, count: int, maxRepeat: int) returns (chunks: seq<Chunk>)
    requires count > 0 && maxRepeat > 0
    ensures chunks == StrictChunks(base, stride, 0, count, maxRepeat)
  {
    chunks := [];
    var remaining, offset := count, 0;
    while remaining > 0
      invariant remaining >= 0
      invariant StrictChunks(base, stride, 0, count, maxRepeat)
             == chunks + StrictChunks(base, stride, offset, remaining, maxRepeat)
    {
      var repeatChunk := Min(maxRepeat, remaining);
      var chunkBase := base + offset * stride;
      chunks := chunks + [Chunk(chunkBase, if repeatChunk > 1 then stride else 0, repeatChunk)];
      remaining := remaining - repeatChunk;
      offset := offset + repeatChunk;
    }
  }

  method BoundedStream(base: int, stride: int, count: int, maxRepeat: int, layout: Layout)
    returns (chunks: seq<Chunk>)
    requires count > 0 && maxRepeat > 0 && UsableLayout(layout)
    ensures chunks == BoundedChunks(base, stride, 0, count, maxRepeat, layout)
  {
    TransactionsPositive(layout);
    chunks := [];
    var numTransactions := Quot(layout.capacityBytes, layout.txBytes);
    var stepTransactions := Rem(Quot(stride, layout.prefetch), numTransactions);
    var remaining, offset := count, 0;
    while remaining > 0
      invariant remaining >= 0
      invariant BoundedChunks(base, stride, 0, count, maxRepeat, layout)
             == chunks + BoundedChunks(base, stride, offset, remaining, maxRepeat, layout)
    {
      var logicalAddress := base + offset * stride;
      var startTransaction := Rem(Quot(logicalAddress, layout.prefetch), numTransactions);
      var repeatChunk, concreteStride := Min(maxRepeat, remaining), 0;
      if stepTransactions != 0 {
        var beforeWrap := Quot(numTransactions - 1 - startTransaction, stepTransactions) + 1;
        repeatChunk := Min(Min(maxRepeat, remaining), beforeWrap);
        concreteStride := stepTransactions * layout.txBytes;
      }
      var chunk := Chunk(startTransaction * layout.txBytes, if repeatChunk > 1 then concreteStride else 0, repeatChunk);
      assert chunk == BoundedChunk(base, stride, offset, remaining, maxRepeat, layout);
      StepChunks(base, stride, offset, remaining, maxRepeat, layout, chunks);
      chunks := chunks + [chunk];
      remaining := remaining - repeatChunk;
      offset := offset + repeatChunk;
    }
  }

  /** The generator; each policy's loop is a method of its own above. */
  method HostAddressChunks(
    base: int, stride: int, count: int, maxRepeat: int, layout: Option<Layout>, policy: Policy)
    returns (r: Result<seq<Chunk>>)
    ensures r == HostChunks(base, stride, count, maxRepeat, layout, policy)
  {
    if count <= 0 || maxRepeat <= 0 {
      return Err(BadArgument);
    }
    if policy == UnknownPolicy {
      return Err(UnsupportedPolicy);
    }
    if policy == StrictBytes {
      var chunks := StrictStream(base, stride, count, maxRepeat);
      return Ok(chunks);
    }
    if layout.None? || !UsableLayout(layout.value) {
      return Err(BadLayout);
    }
    if Rem(base, layout.value.prefetch) != 0 || Rem(stride, layout.value.prefetch) != 0 {
      return Err(Misaligned);
    }
    var chunks := BoundedStream(base, stride, count, maxRepeat, layout.value);
    return Ok(chunks);
  }

  // ----- the chunks mean the stream

  lemma {:induction false} ExpandAllConcat(a: seq<Chunk>, b: seq<Chunk>)
    ensures ExpandAll(a + b) == ExpandAll(a) + ExpandAll(b)
  {
    if |a| == 0 {
      assert a + b == b;
    } else {
      ExpandAllConcat(a[1..], b);
      assert (a + b)[1..] == a[1..] + b;
      ConcatAssociative(Expand(a[0]), ExpandAll(a[1..]), ExpandAll(b));
    }
  }

  /** Moving one logical step moves the transaction by `step`, modulo the device. */
  lemma TokenAdvance(base: int, stride: int, layout: Layout, offset: int, j: int)
    requires UsableLayout(layout)
    requires Rem(base, layout.prefetch) == 0 && Rem(stride, layout.prefetch) == 0
    ensures var n := Transactions(layout);
            && n >= 1
            && Rem(Quot(base + (offset + j) * stride, layout.prefetch), n)
            == Rem(Rem(Quot(base + offset * stride, layout.prefetch), n) + j * BoundedStep(stride, layout), n)
  {
    TransactionsPositive(layout);
    var p, n := layout.prefetch, Transactions(layout);
    var a, s := Quot(base + offset * stride, p), Quot(stride, p);
    QuotRem(stride, p);
    assert base + (offset + j) * stride == (base + offset * stride) + (j * s) * p by {
      assert (offset + j) * stride == offset * stride + j * stride;
      assert j * stride == j * (s * p) == (j * s) * p;
    }
    AddMultiple(base + offset * stride, j * s, p);
    assert Quot(base + (offset + j) * stride, p) == a + j * s;
    RemSum(a, j * s, n);
    RemScale(s, j, Rem(a, n), n);
  }

  lemma RemScale(s: int, j: int, a: int, n: int)
    requires n >= 1
    ensures Rem(a + j * s, n) == Rem(a + j * Rem(s, n), n)
  {
    QuotRem(s, n);
    assert j * s == j * Rem(s, n) + (j * Quot(s, n)) * n by {
      assert j * (Quot(s, n) * n) == (j * Quot(s, n)) * n;
    }
    AddMultiple(a + j * Rem(s, n), j * Quot(s, n), n);
  }

  /** Inside one chunk the transaction never wraps. */
  lemma NoWrapInChunk(start: int, step: int, n: int, j: int)
    requires 0 <= start < n && step > 0
    requires 0 <= j <= Quot(n - 1 - start, step)
    ensures 0 <= start + j * step < n
  {
    QuotRem(n - 1 - start, step);
    MulMonotone(0, j, step);
    MulMonotone(j, Quot(n - 1 - start, step), step);
  }

  lemma BoundedChunkElement(
    base: int, stride: int, offset: int, remaining: int, maxRepeat: int, layout: Layout, j: int)
    requires maxRepeat > 0 && remaining > 0 && UsableLayout(layout)
    requires Rem(base, layout.prefetch) == 0 && Rem(stride, layout.prefetch) == 0
    requires 0 <= j < BoundedChunk(base, stride, offset, remaining, maxRepeat, layout).repeat
    ensures var c := BoundedChunk(base, stride, offset, remaining, maxRepeat, layout);
            c.base + j * c.stride == Token(base + (offset + j) * stride, layout)
  {
    var c := BoundedChunk(base, stride, offset, remaining, maxRepeat, layout);
    TransactionsPositive(layout);
    var n, step := Transactions(layout), BoundedStep(stride, layout);
    var start := Rem(Quot(base + offset * stride, layout.prefetch), n);
    TokenAdvance(base, stride, layout, offset, j);
    RunStaysBelow(start, step, n, j);
    ScaledElement(start, step, layout.txBytes, j, c.stride);
  }

  /** Before the wrap, the transactions of a chunk are `start + j * step` themselves. */
  lemma RunStaysBelow(start: int, step: int, n: int, j: int)
    requires 0 <= start < n && step >= 0 && j >= 0 && (step > 0 ==> j <= Quot(n - 1 - start, step))
    ensures Rem(start + j * step, n) == start + j * step
  {
    if step == 0 {
      assert j * step == 0;
      QuotSmall(start, n);
    } else {
      NoWrapInChunk(start, step, n, j);
      QuotSmall(start + j * step, n);
    }
  }

  lemma ScaledElement(start: int, step: int, txBytes: int, j: int, stride: int)
    requires j == 0 || stride == step * txBytes
    ensures start * txBytes + j * stride == (start + j * step) * txBytes
  {
    if j != 0 {
      assert j * (step * txBytes) == (j * step) * txBytes;
    }
  }

  /** Element `k` of the bounded stream. */
  function TokenAt(base: int, stride: int, k: int, layout: Layout): int
    requires UsableLayout(layout)
  {
    Token(base + k * stride, layout)
  }

  lemma {:induction false} BoundedChunksExpand(
    base: int, stride: int, offset: int, remaining: int, maxRepeat: int, layout: Layout)
    requires maxRepeat > 0 && remaining >= 0 && UsableLayout(layout)
    requires Rem(base, layout.prefetch) == 0 && Rem(stride, layout.prefetch) == 0
    ensures var all := ExpandAll(BoundedChunks(base, stride, offset, remaining, maxRepeat, layout));
            && |all| == remaining
            && forall j :: 0 <= j < remaining ==> all[j] == TokenAt(base, stride, offset + j, layout)
    decreases remaining
  {
    if remaining > 0 {
      var c := BoundedChunk(base, stride, offset, remaining, maxRepeat, layout);
      var n := c.repeat;
      var rest := BoundedChunks(base, stride, offset + n, remaining - n, maxRepeat, layout);
      BoundedChunksExpand(base, stride, offset + n, remaining - n, maxRepeat, layout);
      assert ([c] + rest)[1..] == rest;
      forall j | 0 <= j < n
        ensures Expand(c)[j] == TokenAt(base, stride, offset + j, layout)
      {
        BoundedChunkElement(base, stride, offset, remaining, maxRepeat, layout, j);
      }
      assert forall i :: 0 <= i < remaining - n ==>
        ExpandAll(rest)[i] == TokenAt(base, stride, offset + (n + i), layout);
    }
  }

  lemma {:induction false} StrictChunksExpand(base: int, stride: int, offset: int, remaining: int, maxRepeat: int)
    requires maxRepeat > 0 && remaining >= 0
    ensures var all := ExpandAll(StrictChunks(base, stride, offset, remaining, maxRepeat));
            && |all| == remaining
            && forall j :: 0 <= j < remaining ==> all[j] == base + (offset + j) * stride
    decreases remaining
  {
    if remaining > 0 {
      var n := Min(maxRepeat, remaining);
      var c := Chunk(base + offset * stride, if n > 1 then stride else 0, n);
      var rest := StrictChunks(base, stride, offset + n, remaining - n, maxRepeat);
      StrictChunksExpand(base, stride, offset + n, remaining - n, maxRepeat);
      assert ([c] + rest)[1..] == rest;
      StrictJoin(base, stride, offset, n, Expand(c), ExpandAll(rest));
    }
  }

  lemma StrictJoin(base: int, stride: int, offset: int, n: nat, front: seq<int>, rest: seq<int>)
    requires |front| == n
    requires forall j :: 0 <= j < n ==> front[j] == base + offset * stride + j * (if n > 1 then stride else 0)
    requires forall j :: 0 <= j < |rest| ==> rest[j] == base + (offset + n + j) * stride
    ensures forall j :: 0 <= j < n + |rest| ==> (front + rest)[j] == base + (offset + j) * stride
  {
    forall j | 0 <= j < n + |rest|
      ensures (front + rest)[j] == base + (offset + j) * stride
    {
      if j < n {
        StrictElement(base, stride, offset, n, j);
      } else {
        assert rest[j - n] == base + (offset + n + (j - n)) * stride;
      }
    }
  }

  lemma StrictElement(base: int, stride: int, offset: int, n: int, j: int)
    requires 0 <= j < n
    ensures base + offset * stride + j * (if n > 1 then stride else 0) == base + (offset + j) * stride
  {
    assert (offset + j) * stride == offset * stride + j * stride;
  }

  predicate Applicable(policy: Policy, layout: Option<Layout>) {
    policy == StrictBytes || (policy == BoundedSurrogate && layout.Some? && UsableLayout(layout.value))
  }

  /** Stream refinement: replaying the emitted chunks gives the record's stream, element
      by element and in order, under either policy. */
  lemma ChunksExpandToStream(
    base: int, stride: int, count: int, maxRepeat: int, layout: Option<Layout>, policy: Policy)
    requires HostChunks(base, stride, count, maxRepeat, layout, policy).Ok?
    ensures count > 0 && Applicable(policy, layout)
    ensures ExpandAll(HostChunks(base, stride, count, maxRepeat, layout, policy).value)
         == Stream(base, stride, count, policy, layout)
  {
    if policy == BoundedSurrogate {
      BoundedChunksExpand(base, stride, 0, count, maxRepeat, layout.value);
    } else {
      StrictChunksExpand(base, stride, 0, count, maxRepeat);
    }
  }

  /** Every address the bounded policy produces is a transaction start inside the device. */
  lemma TokenInCapacity(logical: int, layout: Layout)
    requires UsableLayout(layout)
    ensures 0 <= Token(logical, layout) <= layout.capacityBytes - layout.txBytes
    ensures Rem(Token(logical, layout), layout.txBytes) == 0
  {
    TransactionsPositive(layout);
    var n, tx := Transactions(layout), layout.txBytes;
    var t := Rem(Quot(logical, layout.prefetch), n);
    MulMonotone(0, t, tx);
    MulMonotone(t, n - 1, tx);
    assert (n - 1) * tx == n * tx - tx;
    QuotUnique(t * tx, tx, t, 0);
  }

  predicate WellSized(c: Chunk, maxRepeat: int) {
    1 <= c.repeat <= maxRepeat && (c.repeat == 1 ==> c.stride == 0)
  }

  lemma {:induction false} BoundedChunksWellSized(
    base: int, stride: int, offset: int, remaining: int, maxRepeat: int, layout: Layout)
    requires maxRepeat > 0 && UsableLayout(layout)
    ensures forall c :: c in BoundedChunks(base, stride, offset, remaining, maxRepeat, layout) ==> WellSized(c, maxRepeat)
    decreases remaining
  {
    if remaining > 0 {
      var c := BoundedChunk(base, stride, offset, remaining, maxRepeat, layout);
      BoundedChunksWellSized(base, stride, offset + c.repeat, remaining - c.repeat, maxRepeat, layout);
    }
  }

  lemma {:induction false} StrictChunksWellSized(base: int, stride: int, offset: int, remaining: int, maxRepeat: int)
    requires maxRepeat > 0
    ensures forall c :: c in StrictChunks(base, stride, offset, remaining, maxRepeat) ==> WellSized(c, maxRepeat)
    decreases remaining
  {
    if remaining > 0 {
      var n := Min(maxRepeat, remaining);
      StrictChunksWellSized(base, stride, offset + n, remaining - n, maxRepeat);
    }
  }

  /** No chunk is empty or longer than one record may repeat. */
  lemma ChunksWellSized(
    base: int, stride: int, count: int, maxRepeat: int, layout: Option<Layout>, policy: Policy)
    requires HostChunks(base, stride, count, maxRepeat, layout, policy).Ok?
    ensures forall c :: c in HostChunks(base, stride, count, maxRepeat, layout, policy).value
              ==> WellSized(c, maxRepeat)
  {
    if policy == BoundedSurrogate {
      BoundedChunksWellSized(base, stride, 0, count, maxRepeat, layout.value);
    } else {
      StrictChunksWellSized(base, stride, 0, count, maxRepeat);
    }
  }
}
