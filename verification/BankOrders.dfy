/** When the interleave order and the controller's order agree, read off the bank map. */
module BankOrders {
  import opened Addressing
  import opened Division
  import opened FlatBank
  import opened MixedRadix
  import opened Results

  /** The bank levels with more than one value stand in hierarchy order. */
  predicate WideAscending(positions: seq<int>, counts: seq<int>) {
    |positions| == |counts|
    && forall i, j :: 0 <= i < j < |positions| && counts[i] >= 2 && counts[j] >= 2 ==> positions[i] < positions[j]
  }

  function Zeros(size: nat): (v: seq<int>)
    ensures |v| == size && forall p :: 0 <= p < size ==> v[p] == 0
  {
    seq(size, _ => 0)
  }

  function Placed(flat: int, size: nat, positions: seq<int>, counts: seq<int>, controllerOrder: bool): seq<int>
    requires BankMap(positions, counts, size)
  {
    Place(flat, Zeros(size), positions, counts, BankOrder(positions, controllerOrder))
  }

  // ---- levels with a single value do not count ----

  /** The levels of `order` with more than one value. */
  function Wide(order: seq<nat>, counts: seq<int>): (wide: seq<nat>)
    requires IndicesOf(order, |counts|)
    ensures IndicesOf(wide, |counts|)
    decreases |order|
  {
    if order == [] then []
    else
      var k := order[|order| - 1];
      Wide(order[..|order| - 1], counts) + if counts[k] >= 2 then [k] else []
  }

  lemma {:induction false} WideMembers(order: seq<nat>, counts: seq<int>)
    requires IndicesOf(order, |counts|)
    ensures forall k: nat :: k < |counts| ==> multiset(Wide(order, counts))[k] == if counts[k] >= 2 then multiset(order)[k] else 0
    decreases |order|
  {
    if order != [] {
      var n := |order| - 1;
      WideMembers(order[..n], counts);
      assert order == order[..n] + [order[n]];
    }
  }

  lemma WideSameMembers(a: seq<nat>, b: seq<nat>, counts: seq<int>)
    requires IndicesOf(a, |counts|) && IndicesOf(b, |counts|) && multiset(a) == multiset(b)
    ensures multiset(Wide(a, counts)) == multiset(Wide(b, counts))
  {
    WideMembers(a, counts);
    WideMembers(b, counts);
    var x, y := multiset(Wide(a, counts)), multiset(Wide(b, counts));
    forall k: nat
      ensures x[k] == y[k]
    {
      if k in x {
        assert k in Wide(a, counts);
      }
      if k in y {
        assert k in Wide(b, counts);
      }
    }
  }

  lemma {:induction false} WideFrom(order: seq<nat>, counts: seq<int>, i: nat)
    requires IndicesOf(order, |counts|) && i < |Wide(order, counts)|
    ensures Wide(order, counts)[i] in order && counts[Wide(order, counts)[i]] >= 2
    decreases |order|
  {
    var n := |order| - 1;
    if i < |Wide(order[..n], counts)| {
      WideFrom(order[..n], counts, i);
    }
  }

  lemma {:induction false} WideSorted(order: seq<nat>, counts: seq<int>, key: seq<int>)
    requires |key| == |counts| && IndicesOf(order, |counts|)
    requires forall i, j :: 0 <= i < j < |order| && counts[order[i]] >= 2 && counts[order[j]] >= 2 ==> key[order[i]] <= key[order[j]]
    ensures SortedByKey(Wide(order, counts), key)
    decreases |order|
  {
    if order != [] {
      var n := |order| - 1;
      WideSorted(order[..n], counts, key);
      var front := Wide(order[..n], counts);
      forall i | 0 <= i < |front| && counts[order[n]] >= 2
        ensures key[front[i]] <= key[order[n]]
      {
        WideFrom(order[..n], counts, i);
        var j :| 0 <= j < n && order[..n][j] == front[i];
      }
    }
  }

  lemma SameLast(a: seq<nat>, b: seq<nat>, key: seq<int>)
    requires IndicesOf(a, |key|) && IndicesOf(b, |key|) && Distinct(key) && a != []
    requires SortedByKey(a, key) && SortedByKey(b, key) && multiset(a) == multiset(b)
    ensures |a| == |b| && a[|a| - 1] == b[|b| - 1]
  {
    assert |multiset(a)| == |multiset(b)|;
    var n := |a| - 1;
    assert a[n] in multiset(b) && b[n] in multiset(a);
    var i :| 0 <= i < |b| && b[i] == a[n];
    var j :| 0 <= j < |a| && a[j] == b[n];
    assert key[b[i]] <= key[b[n]] && key[a[j]] <= key[a[n]];
  }

  lemma WithoutLast(a: seq<nat>)
    requires a != []
    ensures multiset(a[..|a| - 1]) == multiset(a) - multiset{a[|a| - 1]}
  {
    assert a == a[..|a| - 1] + [a[|a| - 1]];
  }

  lemma FrontSorted(a: seq<nat>, key: seq<int>)
    requires a != [] && IndicesOf(a, |key|) && SortedByKey(a, key)
    ensures IndicesOf(a[..|a| - 1], |key|) && SortedByKey(a[..|a| - 1], key)
  {
  }

  lemma SameLength(a: seq<nat>, b: seq<nat>)
    requires multiset(a) == multiset(b)
    ensures |a| == |b|
  {
    assert |multiset(a)| == |multiset(b)|;
  }

  lemma FrontAndLast(a: seq<nat>, b: seq<nat>)
    requires a != [] && |a| == |b| && a[..|a| - 1] == b[..|b| - 1] && a[|a| - 1] == b[|b| - 1]
    ensures a == b
  {
    assert a == a[..|a| - 1] + [a[|a| - 1]] && b == b[..|b| - 1] + [b[|b| - 1]];
  }

  /** A list without ties has one sorted arrangement. */
  lemma {:induction false} SortedOnce(a: seq<nat>, b: seq<nat>, key: seq<int>)
    requires IndicesOf(a, |key|) && IndicesOf(b, |key|) && Distinct(key)
    requires SortedByKey(a, key) && SortedByKey(b, key) && multiset(a) == multiset(b)
    ensures a == b
    decreases |a|
  {
    SameLength(a, b);
    if a != [] {
      SameLast(a, b, key);
      WithoutLast(a);
      WithoutLast(b);
      FrontSorted(a, key);
      FrontSorted(b, key);
      SortedOnce(a[..|a| - 1], b[..|b| - 1], key);
      FrontAndLast(a, b);
    }
  }

  lemma ValueSnoc(digits: seq<int>, radices: seq<int>, digit: int, radix: int)
    requires |digits| == |radices|
    ensures Value(digits + [digit], radices + [radix]) == Value(digits, radices) * radix + digit
  {
    assert (digits + [digit])[..|digits|] == digits && (radices + [radix])[..|radices|] == radices;
  }

  lemma PermutedSnoc(x: seq<int>, order: seq<nat>, k: nat)
    requires IndicesOf(order, |x|) && k < |x|
    ensures Permuted(x, order + [k]) == Permuted(x, order) + [x[k]]
  {
  }

  lemma WideSnoc(front: seq<nat>, k: nat, counts: seq<int>)
    requires IndicesOf(front, |counts|) && k < |counts|
    ensures counts[k] >= 2 ==> Wide(front + [k], counts) == Wide(front, counts) + [k]
    ensures counts[k] < 2 ==> Wide(front + [k], counts) == Wide(front, counts)
  {
    assert (front + [k])[..|front|] == front;
  }

  lemma ValueOfSnoc(x: seq<int>, counts: seq<int>, front: seq<nat>, k: nat)
    requires |x| == |counts| && IndicesOf(front, |counts|) && k < |counts|
    ensures Value(Permuted(x, front + [k]), Permuted(counts, front + [k]))
         == Value(Permuted(x, front), Permuted(counts, front)) * counts[k] + x[k]
  {
    PermutedSnoc(x, front, k);
    PermutedSnoc(counts, front, k);
    ValueSnoc(Permuted(x, front), Permuted(counts, front), x[k], counts[k]);
  }

  /** The value of a numeral ignores digits of radix one. */
  lemma {:induction false} ValueOfWide(x: seq<int>, counts: seq<int>, order: seq<nat>)
    requires InRange(x, counts) && Positive(counts) && IndicesOf(order, |counts|)
    ensures Value(Permuted(x, order), Permuted(counts, order))
         == Value(Permuted(x, Wide(order, counts)), Permuted(counts, Wide(order, counts)))
    decreases |order|
  {
    if order != [] {
      var n := |order| - 1;
      var k, front := order[n], order[..n];
      assert order == front + [k];
      ValueOfWide(x, counts, front);
      WideSnoc(front, k, counts);
      ValueOfSnoc(x, counts, front, k);
      if counts[k] >= 2 {
        ValueOfSnoc(x, counts, Wide(front, counts), k);
      }
    }
  }

  lemma WideOrdersSame(positions: seq<int>, counts: seq<int>)
    requires |positions| == |counts| && Distinct(positions) && WideAscending(positions, counts)
    ensures Wide(BankOrder(positions, true), counts) == Wide(Identity(|positions|), counts)
  {
    var order, given := BankOrder(positions, true), Identity(|positions|);
    WideSorted(order, counts, positions);
    WideSorted(given, counts, positions);
    WideSameMembers(order, given, counts);
    SortedOnce(Wide(order, counts), Wide(given, counts), positions);
  }

  // ---- where the orders agree ----

  lemma OrderHolds(positions: seq<int>, controllerOrder: bool, k: nat) returns (j: nat)
    requires k < |positions|
    ensures j < |BankOrder(positions, controllerOrder)| && BankOrder(positions, controllerOrder)[j] == k
  {
    var order := BankOrder(positions, controllerOrder);
    assert Identity(|positions|)[k] == k;
    assert k in multiset(order);
    j :| 0 <= j < |order| && order[j] == k;
  }

  /** Decomposition of a value writes the coordinates that have the value. */
  lemma PlacedAt(flat: int, size: nat, x: seq<int>, positions: seq<int>, counts: seq<int>, controllerOrder: bool, k: nat)
    requires BankMap(positions, counts, size) && InRange(x, counts) && k < |positions|
    requires var order := BankOrder(positions, controllerOrder); Value(Permuted(x, order), Permuted(counts, order)) == flat
    ensures Placed(flat, size, positions, counts, controllerOrder)[positions[k]] == x[k]
  {
    var order := BankOrder(positions, controllerOrder);
    BankOrderDistinct(positions, controllerOrder);
    PlaceWritesDigits(flat, Zeros(size), positions, counts, order);
    DigitsOfValue(Permuted(x, order), Permuted(counts, order));
    var j := OrderHolds(positions, controllerOrder, k);
    assert Permuted(x, order)[j] == x[k];
  }

  /** A vector that holds coordinates `x` at the bank levels is what decomposition of
      their value writes, in either order. */
  lemma PlacedIs(flat: int, r: seq<int>, x: seq<int>, positions: seq<int>, counts: seq<int>, controllerOrder: bool)
    requires BankMap(positions, counts, |r|) && InRange(x, counts)
    requires forall k :: 0 <= k < |positions| ==> r[positions[k]] == x[k]
    requires forall p :: 0 <= p < |r| && p !in positions ==> r[p] == 0
    requires var order := BankOrder(positions, controllerOrder); Value(Permuted(x, order), Permuted(counts, order)) == flat
    ensures Placed(flat, |r|, positions, counts, controllerOrder) == r
  {
    forall p | 0 <= p < |r|
      ensures Placed(flat, |r|, positions, counts, controllerOrder)[p] == r[p]
    {
      if p in positions {
        var k :| 0 <= k < |positions| && positions[k] == p;
        PlacedAt(flat, |r|, x, positions, counts, controllerOrder, k);
      } else {
        PlacedOffBanks(flat, Zeros(|r|), positions, counts, controllerOrder, p);
      }
    }
  }

  /** The coordinates a bank has in interleave order. */
  lemma CoordinatesOf(flat: int, size: nat, positions: seq<int>, counts: seq<int>) returns (x: seq<int>)
    requires BankMap(positions, counts, size) && 0 <= flat < Product(counts)
    ensures InRange(x, counts) && Value(x, counts) == flat
    ensures forall k :: 0 <= k < |positions| ==> Placed(flat, size, positions, counts, false)[positions[k]] == x[k]
    ensures forall p :: 0 <= p < size && p !in positions ==> Placed(flat, size, positions, counts, false)[p] == 0
  {
    x := Digits(flat, counts);
    ValueOfDigits(flat, counts);
    GivenDigits(flat, size, positions, counts);
    forall p: nat | p < size && p !in positions
      ensures Placed(flat, size, positions, counts, false)[p] == 0
    {
      PlacedOffBanks(flat, Zeros(size), positions, counts, false, p);
    }
  }

  lemma GivenDigits(flat: int, size: nat, positions: seq<int>, counts: seq<int>)
    requires BankMap(positions, counts, size)
    ensures forall k :: 0 <= k < |positions| ==> Placed(flat, size, positions, counts, false)[positions[k]] == Digits(flat, counts)[k]
  {
    var given := Identity(|positions|);
    BankOrderDistinct(positions, false);
    PlaceWritesDigits(flat, Zeros(size), positions, counts, given);
    assert Permuted(counts, given) == counts;
    forall k | 0 <= k < |positions|
      ensures Placed(flat, size, positions, counts, false)[positions[k]] == Digits(flat, counts)[k]
    {
      assert given[k] == k;
    }
  }

  lemma AscendingPlacesAlike(flat: int, size: nat, positions: seq<int>, counts: seq<int>)
    requires BankMap(positions, counts, size) && WideAscending(positions, counts) && 0 <= flat < Product(counts)
    ensures Placed(flat, size, positions, counts, true) == Placed(flat, size, positions, counts, false)
  {
    var x := CoordinatesOf(flat, size, positions, counts);
    var given := Identity(|positions|);
    assert Permuted(x, given) == x && Permuted(counts, given) == counts;
    ValueOfWide(x, counts, given);
    ValueOfWide(x, counts, BankOrder(positions, true));
    WideOrdersSame(positions, counts);
    PlacedIs(flat, Placed(flat, size, positions, counts, false), x, positions, counts, true);
  }

  // ---- where they do not ----

  function Hot(n: nat, p: nat): (digits: seq<int>)
    ensures |digits| == n
  {
    seq(n, q => if q == p then 1 else 0)
  }

  /** A one in an earlier digit is worth more. */
  lemma {:induction false} HotDescends(n: nat, p: nat, q: nat, radices: seq<int>)
    requires |radices| == n && p < q < n && Positive(radices) && radices[q] >= 2
    ensures Value(Hot(n, p), radices) > Value(Hot(n, q), radices) >= 1
    decreases n
  {
    var front := radices[..n - 1];
    assert Hot(n, p)[..n - 1] == Hot(n - 1, p) && Hot(n, q)[..n - 1] == Hot(n - 1, q);
    if q == n - 1 {
      HotPositive(n - 1, p, front);
      NoHot(n - 1, q, front);
      MulMonotone(1, Value(Hot(n - 1, p), front), radices[q]);
    } else {
      HotDescends(n - 1, p, q, front);
      MulMonotone(1, radices[n - 1], Value(Hot(n - 1, p), front) - Value(Hot(n - 1, q), front));
      MulMonotone(1, radices[n - 1], Value(Hot(n - 1, q), front));
      Distribute(Value(Hot(n - 1, p), front), Value(Hot(n - 1, q), front), radices[n - 1]);
    }
  }

  lemma Distribute(a: int, b: int, r: int)
    ensures r * (a - b) == a * r - b * r && r * b == b * r
  {
  }

  lemma {:induction false} HotPositive(n: nat, p: nat, radices: seq<int>)
    requires |radices| == n && p < n && Positive(radices)
    ensures Value(Hot(n, p), radices) >= 1
    decreases n
  {
    var front := radices[..n - 1];
    assert Hot(n, p)[..n - 1] == Hot(n - 1, p);
    if p == n - 1 {
      NoHot(n - 1, p, front);
    } else {
      HotPositive(n - 1, p, front);
      MulMonotone(1, Value(Hot(n - 1, p), front), radices[n - 1]);
    }
  }

  lemma {:induction false} NoHot(n: nat, p: nat, radices: seq<int>)
    requires |radices| == n && n <= p
    ensures Value(Hot(n, p), radices) == 0
    decreases n
  {
    if n > 0 {
      assert Hot(n, p)[..n - 1] == Hot(n - 1, p);
      NoHot(n - 1, p, radices[..n - 1]);
    }
  }

  lemma HotPermuted(order: seq<nat>, n: nat, p: nat)
    requires IndicesOf(order, n) && Distinct(order) && p < |order|
    ensures Permuted(Hot(n, order[p]), order) == Hot(|order|, p)
  {
    forall q | 0 <= q < |order|
      ensures Permuted(Hot(n, order[p]), order)[q] == Hot(|order|, p)[q]
    {
      assert q != p ==> order[q] != order[p];
    }
  }

  /** A bank is the value of its coordinates, read in the order that placed it. */
  lemma FlatIs(flat: int, size: nat, x: seq<int>, positions: seq<int>, counts: seq<int>, controllerOrder: bool)
    requires BankMap(positions, counts, size) && 0 <= flat < Product(counts) && |x| == |positions|
    requires forall k :: 0 <= k < |positions| ==> Placed(flat, size, positions, counts, controllerOrder)[positions[k]] == x[k]
    ensures var order := BankOrder(positions, controllerOrder); flat == Value(Permuted(x, order), Permuted(counts, order))
  {
    var order := BankOrder(positions, controllerOrder);
    FlatBankRecovered(flat, Zeros(size), positions, counts, controllerOrder);
    assert Coordinates(Placed(flat, size, positions, counts, controllerOrder), positions, order) == Permuted(x, order);
  }

  /** The bank whose only coordinate is a one at level `k`. */
  lemma HotBank(size: nat, positions: seq<int>, counts: seq<int>, k: nat) returns (flat: int)
    requires BankMap(positions, counts, size) && k < |positions| && counts[k] >= 2
    ensures 0 <= flat < Product(counts) && flat == Value(Hot(|counts|, k), counts)
    ensures forall i :: 0 <= i < |positions| ==> Placed(flat, size, positions, counts, false)[positions[i]] == Hot(|counts|, k)[i]
  {
    var x, given := Hot(|counts|, k), Identity(|positions|);
    flat := FlatBankOnto(x, Zeros(size), positions, counts, false);
    FlatIs(flat, size, x, positions, counts, false);
    assert Permuted(x, given) == x && Permuted(counts, given) == counts;
  }

  /** Its number in the controller's order. */
  lemma HotInController(flat: int, size: nat, positions: seq<int>, counts: seq<int>, k: nat) returns (p: nat)
    requires BankMap(positions, counts, size) && k < |positions| && 0 <= flat < Product(counts)
    requires forall i :: 0 <= i < |positions| ==> Placed(flat, size, positions, counts, true)[positions[i]] == Hot(|counts|, k)[i]
    ensures var order := BankOrder(positions, true);
      && |order| == |positions| && p < |order| && order[p] == k
      && flat == Value(Hot(|order|, p), Permuted(counts, order))
  {
    BankOrderDistinct(positions, true);
    FlatIs(flat, size, Hot(|counts|, k), positions, counts, true);
    p := OrderHolds(positions, true, k);
    HotPermuted(BankOrder(positions, true), |counts|, p);
  }

  /** Two wide levels out of hierarchy order: one of the two banks with a single one
      there is placed differently. */
  lemma InversionDiffers(size: nat, positions: seq<int>, counts: seq<int>, i: nat, j: nat) returns (flat: int)
    requires BankMap(positions, counts, size) && i < j < |positions| && counts[i] >= 2 && counts[j] >= 2
    requires positions[i] > positions[j]
    ensures 0 <= flat < Product(counts)
    ensures Placed(flat, size, positions, counts, true) != Placed(flat, size, positions, counts, false)
  {
    var order := BankOrder(positions, true);
    var a := HotBank(size, positions, counts, i);
    var b := HotBank(size, positions, counts, j);
    HotDescends(|counts|, i, j, counts);
    flat := a;
    if Placed(a, size, positions, counts, true) == Placed(a, size, positions, counts, false) {
      flat := b;
      if Placed(b, size, positions, counts, true) == Placed(b, size, positions, counts, false) {
        var p := HotInController(a, size, positions, counts, i);
        var q := HotInController(b, size, positions, counts, j);
        ControllerReverses(positions, counts, i, j, p, q);
        assert false;
      }
    }
  }

  lemma ControllerReverses(positions: seq<int>, counts: seq<int>, i: nat, j: nat, p: nat, q: nat)
    requires |positions| == |counts| && Positive(counts) && i < |positions| && j < |positions| && positions[i] > positions[j]
    requires counts[i] >= 2
    requires var order := BankOrder(positions, true); p < |order| && q < |order| && order[p] == i && order[q] == j
    ensures var order := BankOrder(positions, true);
      Value(Hot(|order|, q), Permuted(counts, order)) > Value(Hot(|order|, p), Permuted(counts, order))
  {
    var order := BankOrder(positions, true);
    assert SortedByKey(order, positions);
    assert q < p;
    HotDescends(|order|, q, p, Permuted(counts, order));
  }

  /** Both orders place every bank alike if and only if the levels with more than one
      value stand in hierarchy order. */
  lemma PlacedAlikeExactly(size: nat, positions: seq<int>, counts: seq<int>)
    requires BankMap(positions, counts, size)
    ensures (forall flat :: 0 <= flat < Product(counts) ==>
               Placed(flat, size, positions, counts, true) == Placed(flat, size, positions, counts, false))
       <==> WideAscending(positions, counts)
  {
    if WideAscending(positions, counts) {
      forall flat | 0 <= flat < Product(counts)
        ensures Placed(flat, size, positions, counts, true) == Placed(flat, size, positions, counts, false)
      {
        AscendingPlacesAlike(flat, size, positions, counts);
      }
    } else {
      var i: nat, j: nat :| i < j < |positions| && counts[i] >= 2 && counts[j] >= 2 && positions[i] >= positions[j];
      assert positions[i] != positions[j];
      var flat := InversionDiffers(size, positions, counts, i, j);
    }
  }

  // ---- the rank alone ----

  /** Any digit is read off by dividing by the product of the radices after it. */
  lemma {:induction false} DigitAt(v: int, radices: seq<int>, j: nat)
    requires Positive(radices) && j < |radices|
    ensures Product(radices[j + 1..]) >= 1
    ensures Digits(v, radices)[j] == Rem(Quot(v, Product(radices[j + 1..])), radices[j])
    decreases |radices|
  {
    ProductPositive(radices[j + 1..]);
    var n := |radices| - 1;
    if j == n {
      assert radices[j + 1..] == [];
      QuotUnique(v, 1, v, 0);
    } else {
      var front, rest := radices[..n], radices[j + 1..];
      DigitAt(Quot(v, radices[n]), front, j);
      assert rest[..|rest| - 1] == front[j + 1..] && rest[|rest| - 1] == radices[n];
      QuotQuot(v, radices[n], Product(front[j + 1..]));
    }
  }

  lemma {:induction false} ProductConcat(a: seq<int>, b: seq<int>)
    ensures Product(a + b) == Product(a) * Product(b)
    decreases |b|
  {
    if b == [] {
      assert a + b == a;
    } else {
      var n := |b| - 1;
      assert (a + b)[..|a + b| - 1] == a + b[..n];
      ProductConcat(a, b[..n]);
      Associate(Product(a), Product(b[..n]), b[n]);
    }
  }

  lemma Associate(a: int, b: int, c: int)
    ensures (a * b) * c == a * (b * c)
  {
  }

  /** A digit and the digits after it have room below the total. */
  lemma WeightFits(radices: seq<int>, j: nat)
    requires Positive(radices) && j < |radices|
    ensures Product(radices[j + 1..]) >= 1
    ensures radices[j] >= 2 ==> Product(radices[j + 1..]) < Product(radices)
  {
    var w, c := Product(radices[j + 1..]), radices[j];
    ProductPositive(radices[j + 1..]);
    ProductPositive(radices[..j]);
    assert radices[..j + 1][..j] == radices[..j];
    assert radices == radices[..j + 1] + radices[j + 1..];
    ProductConcat(radices[..j + 1], radices[j + 1..]);
    MulPositive(Product(radices[..j]), c);
    MulMonotone(c, Product(radices[..j]) * c, w);
    if c >= 2 {
      MulMonotone(2, c, w);
    }
  }

  /** The least bank whose digit is not zero in one order has digit zero in the order
      that gives the level more weight. */
  lemma LighterDiffers(light: int, heavy: int, c: int)
    requires 1 <= light < heavy && c >= 2
    ensures Rem(Quot(light, light), c) == 1 && Rem(Quot(light, heavy), c) == 0
  {
    QuotUnique(light, light, 1, 0);
    QuotSmall(light, heavy);
    QuotSmall(1, c);
    QuotSmall(0, c);
  }

  /** The bank levels below `level` in the hierarchy. */
  function Deeper(positions: seq<int>, level: int, n: nat): (levels: seq<nat>)
    requires n <= |positions|
    ensures IndicesOf(levels, n) && forall k: nat :: k in levels <==> k < n && positions[k] > level
    ensures Distinct(levels)
  {
    if n == 0 then [] else Deeper(positions, level, n - 1) + if positions[n - 1] > level then [n - 1] else []
  }

  lemma SameMembers(a: seq<nat>, b: seq<nat>)
    requires Distinct(a) && Distinct(b) && forall k: nat :: k in a <==> k in b
    ensures multiset(a) == multiset(b)
  {
    forall k: nat
      ensures multiset(a)[k] == multiset(b)[k]
    {
      MultiplicityOne(a, k);
      MultiplicityOne(b, k);
      assert k in multiset(a) <==> k in a;
      assert k in multiset(b) <==> k in b;
    }
  }

  lemma IsAfter(positions: seq<int>, j: nat, k: nat)
    requires Distinct(positions) && j < |BankOrder(positions, true)| && k < |positions|
    ensures var order := BankOrder(positions, true);
      order[j] < |positions| && (k in order[j + 1..] <==> positions[k] > positions[order[j]])
  {
    var order := BankOrder(positions, true);
    BankOrderDistinct(positions, true);
    var p := OrderHolds(positions, true, k);
    if p > j {
      assert order[j + 1..][p - (j + 1)] == k;
      assert positions[order[j]] <= positions[order[p]] && order[j] != order[p];
    } else {
      assert positions[order[p]] <= positions[order[j]];
    }
  }

  lemma AfterMembers(positions: seq<int>, j: nat)
    requires Distinct(positions) && j < |BankOrder(positions, true)|
    ensures var order := BankOrder(positions, true);
      && order[j] < |positions| && IndicesOf(order[j + 1..], |positions|)
      && multiset(order[j + 1..]) == multiset(Deeper(positions, positions[order[j]], |positions|))
  {
    var order := BankOrder(positions, true);
    BankOrderDistinct(positions, true);
    var after, deeper := order[j + 1..], Deeper(positions, positions[order[j]], |positions|);
    forall k: nat
      ensures k in after <==> k in deeper
    {
      if k < |positions| {
        IsAfter(positions, j, k);
      }
    }
    SameMembers(after, deeper);
  }

  lemma PermutedDrop(counts: seq<int>, order: seq<nat>, n: nat)
    requires IndicesOf(order, |counts|) && n <= |order|
    ensures IndicesOf(order[n..], |counts|) && Permuted(counts, order)[n..] == Permuted(counts, order[n..])
  {
  }

  /** After a level the controller's order has the levels below it in the hierarchy. */
  lemma AfterInController(positions: seq<int>, counts: seq<int>, j: nat)
    requires |positions| == |counts| && Distinct(positions) && j < |BankOrder(positions, true)|
    ensures var order := BankOrder(positions, true);
      && order[j] < |positions|
      && Product(Permuted(counts, order)[j + 1..])
         == Product(Permuted(counts, Deeper(positions, positions[order[j]], |positions|)))
  {
    var order := BankOrder(positions, true);
    AfterMembers(positions, j);
    PermutedDrop(counts, order, j + 1);
    var after, deeper := order[j + 1..], Deeper(positions, positions[order[j]], |positions|);
    PermutedMultiset(counts, after, deeper);
    ProductPermutation(Permuted(counts, after), Permuted(counts, deeper));
  }

  /** Rank has a single value, or as many banks share a rank step in either order. */
  predicate RankWeightsAgree(positions: seq<int>, counts: seq<int>, rank: int)
    requires |positions| == |counts|
  {
    forall k :: 0 <= k < |positions| && positions[k] == rank ==>
      counts[k] == 1 || Product(counts[k + 1..]) == Product(Permuted(counts, Deeper(positions, rank, |positions|)))
  }

  /** The rank coordinate of a bank, in either order. */
  lemma RankDigits(flat: int, size: nat, positions: seq<int>, counts: seq<int>, k: nat)
    requires BankMap(positions, counts, size) && k < |positions|
    ensures var below := Product(Permuted(counts, Deeper(positions, positions[k], |positions|)));
      && below >= 1 && Product(counts[k + 1..]) >= 1
      && (counts[k] >= 2 ==> below < Product(counts) && Product(counts[k + 1..]) < Product(counts))
      && Placed(flat, size, positions, counts, true)[positions[k]] == Rem(Quot(flat, below), counts[k])
      && Placed(flat, size, positions, counts, false)[positions[k]] == Rem(Quot(flat, Product(counts[k + 1..])), counts[k])
  {
    var order := BankOrder(positions, true);
    var radices := Permuted(counts, order);
    GivenDigits(flat, size, positions, counts);
    DigitAt(flat, counts, k);
    WeightFits(counts, k);
    BankOrderDistinct(positions, true);
    PlaceWritesDigits(flat, Zeros(size), positions, counts, order);
    var j := OrderHolds(positions, true, k);
    DigitAt(flat, radices, j);
    WeightFits(radices, j);
    AfterInController(positions, counts, j);
    PermutedTotal(positions, counts, true);
  }

  /** Both orders give every bank the same rank if and only if a step of Rank spans the
      same number of banks in both. */
  lemma RanksAlikeExactly(size: nat, positions: seq<int>, counts: seq<int>, rank: nat)
    requires BankMap(positions, counts, size) && rank < size
    ensures (forall flat :: 0 <= flat < Product(counts) ==>
               Placed(flat, size, positions, counts, true)[rank] == Placed(flat, size, positions, counts, false)[rank])
       <==> RankWeightsAgree(positions, counts, rank)
  {
    if rank !in positions {
      forall flat | 0 <= flat < Product(counts)
        ensures Placed(flat, size, positions, counts, true)[rank] == Placed(flat, size, positions, counts, false)[rank]
      {
        PlacedOffBanks(flat, Zeros(size), positions, counts, true, rank);
        PlacedOffBanks(flat, Zeros(size), positions, counts, false, rank);
      }
    } else {
      var k :| 0 <= k < |positions| && positions[k] == rank;
      RankAlikeAt(size, positions, counts, k);
      assert forall i :: 0 <= i < |positions| && positions[i] == rank ==> i == k;
    }
  }

  lemma RankAlikeAt(size: nat, positions: seq<int>, counts: seq<int>, k: nat)
    requires BankMap(positions, counts, size) && k < |positions|
    ensures (forall flat :: 0 <= flat < Product(counts) ==>
               Placed(flat, size, positions, counts, true)[positions[k]] == Placed(flat, size, positions, counts, false)[positions[k]])
       <==> counts[k] == 1
            || Product(counts[k + 1..]) == Product(Permuted(counts, Deeper(positions, positions[k], |positions|)))
  {
    var given, below := Product(counts[k + 1..]), Product(Permuted(counts, Deeper(positions, positions[k], |positions|)));
    if counts[k] == 1 || given == below {
      forall flat | 0 <= flat < Product(counts)
        ensures Placed(flat, size, positions, counts, true)[positions[k]] == Placed(flat, size, positions, counts, false)[positions[k]]
      {
        RankDigits(flat, size, positions, counts, k);
      }
    } else {
      var flat := Min(given, below);
      RankDigits(flat, size, positions, counts, k);
      LighterDiffers(flat, Max(given, below), counts[k]);
    }
  }

  // ---- the order of a resolved layout ----

  /** BankGroup and PseudoChannel are the fast levels, PseudoChannel the faster one. */
  function Speed(names: seq<string>, p: int): nat {
    if p < 0 then 0
    else if IndexOf(names, "PseudoChannel") == Some(p as nat) then 2
    else if IndexOf(names, "BankGroup") == Some(p as nat) then 1
    else 0
  }

  predicate SlowerFirst(names: seq<string>, positions: seq<int>) {
    forall i, j :: 0 <= i < j < |positions| ==>
      Speed(names, positions[i]) < Speed(names, positions[j])
      || (Speed(names, positions[i]) == Speed(names, positions[j]) && positions[i] < positions[j])
  }

  lemma MoveKeepsOrder(s: seq<int>, at: nat)
    requires Distinct(s) && at < |s|
    ensures var moved := MoveToBack(s, at);
      && moved[|s| - 1] == s[at]
      && (forall i :: 0 <= i < |s| - 1 ==> moved[i] == s[BackIndex(i, at, |s|)] && moved[i] != s[at])
  {
  }

  /** Ascending but for the levels in `last`, which end the list in that order. */
  predicate AscendingThen(positions: seq<int>, last: seq<int>) {
    && |last| <= |positions| && positions[|positions| - |last|..] == last
    && (forall i, j :: 0 <= i < j < |positions| - |last| ==> positions[i] < positions[j])
    && (forall i :: 0 <= i < |positions| - |last| ==> positions[i] !in last)
  }

  lemma RotationOrders(s: seq<int>, last: seq<int>, at: nat)
    requires Distinct(s) && AscendingThen(s, last) && |last| <= 1 && at < |s| - |last|
    ensures AscendingThen(MoveToBack(s, at), last + [s[at]]) && Distinct(MoveToBack(s, at))
  {
    MoveKeepsOrder(s, at);
    var moved := MoveToBack(s, at);
    assert moved[|s| - 1 - |last|..] == last + [s[at]];
    forall i, j | 0 <= i < j < |s|
      ensures moved[i] != moved[j]
    {
      assert j < |s| - 1 ==> BackIndex(i, at, |s|) != BackIndex(j, at, |s|);
    }
  }

  /** The level `name`, if the hierarchy has it. */
  function Named(names: seq<string>, name: string): (at: seq<int>)
    ensures |at| <= 1 && forall p :: p in at ==> 0 <= p < |names| && names[p] == name
  {
    var pos := IndexOf(names, name);
    if pos.None? then [] else [pos.value]
  }

  lemma RotatedOrder(names: seq<string>, name: string, banks: (seq<int>, seq<int>), last: seq<int>)
    requires |banks.0| == |banks.1| && Distinct(banks.0) && AscendingThen(banks.0, last) && |last| <= 1
    requires RotateLevel(names, name, banks).Ok? && forall p :: p in last ==> 0 <= p < |names| && names[p] != name
    ensures var rotated := RotateLevel(names, name, banks).value.0;
      Distinct(rotated) && AscendingThen(rotated, last + Named(names, name))
  {
    var pos := IndexOf(names, name);
    if pos.None? {
      assert last + [] == last;
    } else {
      var at := IndexOf(banks.0, pos.value as int).value;
      RotationOrders(banks.0, last, at);
    }
  }

  lemma FastLevelsLast(names: seq<string>, positions: seq<int>)
    requires AscendingThen(positions, Named(names, "BankGroup") + Named(names, "PseudoChannel"))
    ensures SlowerFirst(names, positions)
  {
    var group, channel := Named(names, "BankGroup"), Named(names, "PseudoChannel");
    var last := group + channel;
    var n := |positions| - |last|;
    assert "BankGroup"[0] != "PseudoChannel"[0];
    forall i | 0 <= i < |positions|
      ensures i < n ==> Speed(names, positions[i]) == 0
      ensures n <= i < n + |group| ==> Speed(names, positions[i]) == 1
      ensures n + |group| <= i ==> Speed(names, positions[i]) == 2
    {
      if i >= n {
        assert positions[n..][i - n] == positions[i];
      } else {
        assert positions[i] !in group && positions[i] !in channel;
      }
    }
  }

  /** The interleave order lists the slower levels first: those that are neither
      BankGroup nor PseudoChannel in hierarchy order, then BankGroup, then PseudoChannel. */
  lemma LayoutListsSlowerFirst(names: seq<string>, sizes: seq<int>, rankPos: nat, bankPos: nat)
    requires |names| == |sizes| && rankPos <= bankPos < |names| && LayoutBanks(names, sizes, rankPos, bankPos).Ok?
    ensures SlowerFirst(names, LayoutBanks(names, sizes, rankPos, bankPos).value.0)
  {
    var positions := seq(bankPos + 1 - rankPos, i => rankPos + i);
    var counts := sizes[rankPos..bankPos + 1];
    assert AscendingThen(positions, []);
    RotatedOrder(names, "BankGroup", (positions, counts), []);
    var grouped := RotateLevel(names, "BankGroup", (positions, counts)).value;
    assert [] + Named(names, "BankGroup") == Named(names, "BankGroup");
    assert "BankGroup"[0] != "PseudoChannel"[0];
    RotatedOrder(names, "PseudoChannel", grouped, Named(names, "BankGroup"));
    FastLevelsLast(names, LayoutBanks(names, sizes, rankPos, bankPos).value.0);
  }

  /** So neighbouring bank units never share the fastest level, if it has two values. */
  lemma NeighboursAlternate(names: seq<string>, sizes: seq<int>, rankPos: nat, bankPos: nat, flat: int)
    requires |names| == |sizes| && Positive(sizes) && rankPos <= bankPos < |names| && names[rankPos] == "Rank"
    requires LayoutBanks(names, sizes, rankPos, bankPos).Ok?
    ensures var (positions, counts) := LayoutBanks(names, sizes, rankPos, bankPos).value;
      var fastest := positions[|positions| - 1];
      && BankMap(positions, counts, |names|) && 0 <= fastest < |sizes|
      && (sizes[fastest] >= 2 ==>
            Placed(flat + 1, |names|, positions, counts, false)[fastest] != Placed(flat, |names|, positions, counts, false)[fastest])
  {
    LayoutBanksLeadWithRank(names, sizes, rankPos, bankPos);
    var (positions, counts) := LayoutBanks(names, sizes, rankPos, bankPos).value;
    var n := |positions| - 1;
    GivenDigits(flat, |names|, positions, counts);
    GivenDigits(flat + 1, |names|, positions, counts);
    LastDigit(flat, counts);
    LastDigit(flat + 1, counts);
    if counts[n] >= 2 {
      NextDigitDiffers(flat, counts[n]);
    }
  }

  lemma LastDigit(flat: int, counts: seq<int>)
    requires Positive(counts) && |counts| > 0
    ensures Digits(flat, counts)[|counts| - 1] == Rem(flat, counts[|counts| - 1])
  {
  }

  lemma NextDigitDiffers(v: int, r: int)
    requires r >= 2
    ensures Rem(v + 1, r) != Rem(v, r)
  {
    QuotRem(v, r);
    if Rem(v, r) == r - 1 {
      assert (Quot(v, r) + 1) * r == Quot(v, r) * r + r;
      QuotUnique(v + 1, r, Quot(v, r) + 1, 0);
    } else {
      QuotUnique(v + 1, r, Quot(v, r), Rem(v, r) + 1);
    }
  }
}
