/** Flat bank numbers and the coordinates they stand for: `_decompose_flat_bank` and
    `rank_for_flat_bank` of the lowering, and the bank order `extract_dram_layout` builds. */
module FlatBank {
  import opened Addressing
  import opened Division
  import opened MixedRadix
  import opened Results

  predicate Distinct<T(==)>(s: seq<T>) {
    forall i, j :: 0 <= i < j < |s| ==> s[i] != s[j]
  }

  /** The checks on `bank_positions` / `bank_counts` that precede every decomposition. */
  predicate BankMap(positions: seq<int>, counts: seq<int>, size: nat) {
    && |positions| == |counts| > 0
    && Distinct(positions)
    && (forall i :: 0 <= i < |positions| ==> 0 <= positions[i] < size)
    && Positive(counts)
  }

  function Identity(n: nat): (s: seq<nat>)
    ensures |s| == n
  {
    seq(n, i => i)
  }

  // ----- order.sort(key=lambda index: bank_positions[index])

  predicate IndicesOf(order: seq<nat>, n: nat) {
    forall j :: 0 <= j < |order| ==> order[j] < n
  }

  predicate SortedByKey(order: seq<nat>, key: seq<int>)
    requires IndicesOf(order, |key|)
  {
    forall i, j :: 0 <= i < j < |order| ==> key[order[i]] <= key[order[j]]
  }

  function InsertByKey(x: nat, order: seq<nat>, key: seq<int>): (r: seq<nat>)
    requires x < |key| && IndicesOf(order, |key|) && SortedByKey(order, key)
    ensures IndicesOf(r, |key|) && SortedByKey(r, key)
    ensures multiset(r) == multiset(order) + multiset{x}
  {
    if |order| == 0 || key[order[|order| - 1]] <= key[x] then order + [x]
    else
      var n := |order| - 1;
      assert order == order[..n] + [order[n]];
      var front := InsertByKey(x, order[..n], key);
      FrontBelow(front, order[..n], x, key, key[order[n]]);
      front + [order[n]]
  }

  lemma FrontBelow(front: seq<nat>, order: seq<nat>, x: nat, key: seq<int>, bound: int)
    requires x < |key| && IndicesOf(order, |key|) && IndicesOf(front, |key|)
    requires multiset(front) == multiset(order) + multiset{x}
    requires key[x] <= bound && forall j :: 0 <= j < |order| ==> key[order[j]] <= bound
    ensures forall j :: 0 <= j < |front| ==> key[front[j]] <= bound
  {
    forall j | 0 <= j < |front| ensures key[front[j]] <= bound {
      assert front[j] in multiset(front);
      assert front[j] == x || front[j] in order;
    }
  }

  function SortByKey(order: seq<nat>, key: seq<int>): (r: seq<nat>)
    requires IndicesOf(order, |key|)
    ensures IndicesOf(r, |key|) && SortedByKey(r, key)
    ensures multiset(r) == multiset(order)
  {
    if |order| == 0 then []
    else
      var n := |order| - 1;
      assert order == order[..n] + [order[n]];
      InsertByKey(order[n], SortByKey(order[..n], key), key)
  }

  /** Digit order, most significant first: the interleave order as given, or the
      controller's, which is hierarchy order. */
  function BankOrder(positions: seq<int>, controllerOrder: bool): (order: seq<nat>)
    ensures IndicesOf(order, |positions|)
    ensures multiset(order) == multiset(Identity(|positions|))
  {
    if controllerOrder then SortByKey(Identity(|positions|), positions) else Identity(|positions|)
  }

  lemma {:induction false} SameMultisetDistinct(a: seq<nat>, b: seq<nat>)
    requires multiset(a) == multiset(b) && Distinct(b)
    ensures Distinct(a) && |a| == |b|
  {
    assert |multiset(a)| == |multiset(b)|;
    forall i, j | 0 <= i < j < |a| ensures a[i] != a[j] {
      if a[i] == a[j] {
        MultiplicityTwo(a, i, j);
        MultiplicityOne(b, a[i]);
        assert false;
      }
    }
  }

  lemma MultiplicityTwo(a: seq<nat>, i: nat, j: nat)
    requires i < j < |a| && a[i] == a[j]
    ensures multiset(a)[a[i]] >= 2
  {
    assert a == a[..j] + a[j..];
    assert a[i] in multiset(a[..j]) by { assert a[..j][i] == a[i]; }
    assert a[j] in multiset(a[j..]) by { assert a[j..][0] == a[j]; }
  }

  lemma {:induction false} MultiplicityOne(b: seq<nat>, x: nat)
    requires Distinct(b)
    ensures multiset(b)[x] <= 1
  {
    if |b| > 0 {
      var n := |b| - 1;
      assert b == b[..n] + [b[n]];
      MultiplicityOne(b[..n], x);
      if b[n] == x {
        assert x !in b[..n];
        assert x !in multiset(b[..n]);
      }
    }
  }

  lemma BankOrderDistinct(positions: seq<int>, controllerOrder: bool)
    ensures var order := BankOrder(positions, controllerOrder);
            Distinct(order) && |order| == |positions|
  {
    SameMultisetDistinct(BankOrder(positions, controllerOrder), Identity(|positions|));
  }

  function Permuted(counts: seq<int>, order: seq<nat>): (r: seq<int>)
    requires IndicesOf(order, |counts|)
    ensures |r| == |order|
  {
    seq(|order|, j requires 0 <= j < |order| => counts[order[j]])
  }

  lemma PermutedPull(counts: seq<int>, b: seq<nat>, k: nat)
    requires IndicesOf(b, |counts|) && k < |b|
    ensures var rest := b[..k] + b[k + 1..];
            && IndicesOf(rest, |counts|)
            && multiset(Permuted(counts, rest)) == multiset(Permuted(counts, b)) - multiset{counts[b[k]]}
  {
    var pb := Permuted(counts, b);
    assert Permuted(counts, b[..k] + b[k + 1..]) == pb[..k] + pb[k + 1..];
    RemoveAt(pb, k);
  }

  lemma Cancel<T>(m: multiset<T>, n: multiset<T>, x: T)
    requires x in m && x in n && m - multiset{x} == n - multiset{x}
    ensures m == n
  {
    assert m == (m - multiset{x}) + multiset{x} && n == (n - multiset{x}) + multiset{x};
  }

  lemma {:induction false} PermutedMultiset(counts: seq<int>, a: seq<nat>, b: seq<nat>)
    requires IndicesOf(a, |counts|) && IndicesOf(b, |counts|)
    requires multiset(a) == multiset(b)
    ensures multiset(Permuted(counts, a)) == multiset(Permuted(counts, b))
  {
    if |a| == 0 {
      assert |multiset(b)| == 0;
      assert b == [];
    } else {
      var x := a[0];
      assert x in multiset(a);
      assert x in multiset(b);
      var k :| 0 <= k < |b| && b[k] == x;
      RemoveAt(a, 0);
      RemoveAt(b, k);
      PermutedPull(counts, a, 0);
      PermutedPull(counts, b, k);
      PermutedMultiset(counts, a[..0] + a[1..], b[..k] + b[k + 1..]);
      assert Permuted(counts, a)[0] == Permuted(counts, b)[k] == counts[x];
      Cancel(multiset(Permuted(counts, a)), multiset(Permuted(counts, b)), counts[x]);
    }
  }

  lemma PermutedTotal(positions: seq<int>, counts: seq<int>, controllerOrder: bool)
    requires |positions| == |counts|
    ensures Product(Permuted(counts, BankOrder(positions, controllerOrder))) == Product(counts)
  {
    var order := BankOrder(positions, controllerOrder);
    assert multiset(order) == multiset(Identity(|positions|));
    PermutedMultiset(counts, order, Identity(|positions|));
    assert Permuted(counts, Identity(|positions|)) == counts;
    ProductPermutation(Permuted(counts, order), counts);
  }

  // ----- decomposition

  /** `addr_vec` after the digits of `flat` have been written through `order`. */
  function Place(
    flat: int, addrVec: seq<int>, positions: seq<int>, counts: seq<int>, order: seq<nat>): (r: seq<int>)
    requires BankMap(positions, counts, |addrVec|) && IndicesOf(order, |positions|)
    ensures |r| == |addrVec|
    decreases |order|
  {
    if |order| == 0 then addrVec
    else
      var k := order[|order| - 1];
      Place(Quot(flat, counts[k]), addrVec[positions[k] := Rem(flat, counts[k])],
            positions, counts, order[..|order| - 1])
  }

  method DecomposeFlatBank(
    flat: int, addrVec: array<int>, positions: seq<int>, counts: seq<int>, controllerOrder: bool)
    returns (r: Result<bool>)
    requires BankMap(positions, counts, addrVec.Length)
    modifies addrVec
    ensures r == if 0 <= flat < Product(counts) then Ok(true) else Err(BankOutOfRange)
    ensures addrVec[..] ==
            if r.Ok? then Place(flat, old(addrVec[..]), positions, counts, BankOrder(positions, controllerOrder))
            else old(addrVec[..])
  {
    if flat < 0 || flat >= Product(counts) {
      return Err(BankOutOfRange);
    }
    var order := BankOrder(positions, controllerOrder);
    var remaining := flat;
    var j := |order|;
    assert order[..j] == order;
    while j > 0
      invariant 0 <= j <= |order|
      invariant Place(flat, old(addrVec[..]), positions, counts, order)
             == Place(remaining, addrVec[..], positions, counts, order[..j])
    {
      j := j - 1;
      var k := order[j];
      ghost var before := addrVec[..];
      assert order[..j + 1][..j] == order[..j];
      addrVec[positions[k]] := Rem(remaining, counts[k]);
      assert addrVec[..] == before[positions[k] := Rem(remaining, counts[k])];
      remaining := Quot(remaining, counts[k]);
    }
    return Ok(true);
  }

  /** Decomposition writes digit `j` of the reordered numeral at the position of bank
      level `order[j]`, and touches nothing else. */
  lemma {:induction false} PlaceWritesDigits(
    flat: int, addrVec: seq<int>, positions: seq<int>, counts: seq<int>, order: seq<nat>)
    requires BankMap(positions, counts, |addrVec|)
    requires IndicesOf(order, |positions|) && Distinct(order)
    ensures Positive(Permuted(counts, order))
    ensures var r, digits := Place(flat, addrVec, positions, counts, order), Digits(flat, Permuted(counts, order));
            && (forall j :: 0 <= j < |order| ==> r[positions[order[j]]] == digits[j])
            && (forall p :: 0 <= p < |addrVec| && (forall j :: 0 <= j < |order| ==> positions[order[j]] != p)
                  ==> r[p] == addrVec[p])
    decreases |order|
  {
    if |order| > 0 {
      var n := |order| - 1;
      var k := order[n];
      var next := addrVec[positions[k] := Rem(flat, counts[k])];
      PlaceWritesDigits(Quot(flat, counts[k]), next, positions, counts, order[..n]);
      assert Permuted(counts, order)[..n] == Permuted(counts, order[..n]);
      var r := Place(flat, addrVec, positions, counts, order);
      assert r[positions[k]] == next[positions[k]];
      assert forall j :: 0 <= j < n ==> order[..n][j] == order[j];
    }
  }

  /** Bank 0 has coordinate 0 everywhere. */
  lemma {:induction false} PlaceZero(zeros: seq<int>, positions: seq<int>, counts: seq<int>, order: seq<nat>)
    requires BankMap(positions, counts, |zeros|) && IndicesOf(order, |positions|)
    requires forall p :: 0 <= p < |zeros| ==> zeros[p] == 0
    ensures Place(0, zeros, positions, counts, order) == zeros
    decreases |order|
  {
    if |order| > 0 {
      var k := order[|order| - 1];
      QuotSmall(0, counts[k]);
      assert zeros[positions[k] := 0] == zeros;
      PlaceZero(zeros, positions, counts, order[..|order| - 1]);
    }
  }

  /** What decomposition leaves at `p` depends only on what was at `p`. */
  lemma {:induction false} PlacePointwise(
    flat: int, v: seq<int>, w: seq<int>, positions: seq<int>, counts: seq<int>, order: seq<nat>, p: int)
    requires |v| == |w| && BankMap(positions, counts, |v|) && IndicesOf(order, |positions|)
    requires 0 <= p < |v| && v[p] == w[p]
    ensures Place(flat, v, positions, counts, order)[p] == Place(flat, w, positions, counts, order)[p]
    decreases |order|
  {
    if |order| > 0 {
      var k := order[|order| - 1];
      PlacePointwise(Quot(flat, counts[k]), v[positions[k] := Rem(flat, counts[k])],
                     w[positions[k] := Rem(flat, counts[k])], positions, counts, order[..|order| - 1], p);
    }
  }

  lemma PlacedOffBanks(flat: int, v: seq<int>, positions: seq<int>, counts: seq<int>, controllerOrder: bool, p: nat)
    requires BankMap(positions, counts, |v|) && p < |v| && p !in positions
    ensures Place(flat, v, positions, counts, BankOrder(positions, controllerOrder))[p] == v[p]
  {
    BankOrderDistinct(positions, controllerOrder);
    PlaceWritesDigits(flat, v, positions, counts, BankOrder(positions, controllerOrder));
  }

  /** The coordinates of `addrVec` read back in digit order. */
  function Coordinates(addrVec: seq<int>, positions: seq<int>, order: seq<nat>): (c: seq<int>)
    requires IndicesOf(order, |positions|)
    requires forall i :: 0 <= i < |positions| ==> 0 <= positions[i] < |addrVec|
    ensures |c| == |order|
  {
    seq(|order|, j requires 0 <= j < |order| => addrVec[positions[order[j]]])
  }

  /** Decomposition is injective: Horner evaluation of what it wrote gives the flat
      bank back, in either order. */
  lemma FlatBankRecovered(
    flat: int, addrVec: seq<int>, positions: seq<int>, counts: seq<int>, controllerOrder: bool)
    requires BankMap(positions, counts, |addrVec|) && 0 <= flat < Product(counts)
    ensures var order := BankOrder(positions, controllerOrder);
            var r := Place(flat, addrVec, positions, counts, order);
            && InRange(Coordinates(r, positions, order), Permuted(counts, order))
            && Value(Coordinates(r, positions, order), Permuted(counts, order)) == flat
  {
    var order := BankOrder(positions, controllerOrder);
    BankOrderDistinct(positions, controllerOrder);
    PlaceWritesDigits(flat, addrVec, positions, counts, order);
    PermutedTotal(positions, counts, controllerOrder);
    var r := Place(flat, addrVec, positions, counts, order);
    assert Coordinates(r, positions, order) == Digits(flat, Permuted(counts, order));
    ValueOfDigits(flat, Permuted(counts, order));
  }

  /** Decomposition is onto: every tuple of in-range bank coordinates is written for
      some flat bank below the total, in either order. */
  lemma FlatBankOnto(
    coordinates: seq<int>, addrVec: seq<int>, positions: seq<int>, counts: seq<int>, controllerOrder: bool)
    returns (flat: int)
    requires BankMap(positions, counts, |addrVec|) && InRange(coordinates, counts)
    ensures 0 <= flat < Product(counts)
    ensures var r := Place(flat, addrVec, positions, counts, BankOrder(positions, controllerOrder));
            forall k :: 0 <= k < |positions| ==> r[positions[k]] == coordinates[k]
  {
    var order := BankOrder(positions, controllerOrder);
    BankOrderDistinct(positions, controllerOrder);
    var digits := Permuted(coordinates, order);
    var radices := Permuted(counts, order);
    flat := Value(digits, radices);
    ValueBelowProduct(digits, radices);
    PermutedTotal(positions, counts, controllerOrder);
    PlaceWritesDigits(flat, addrVec, positions, counts, order);
    DigitsOfValue(digits, radices);
    forall k | 0 <= k < |positions|
      ensures Place(flat, addrVec, positions, counts, order)[positions[k]] == coordinates[k]
    {
      assert Identity(|positions|)[k] == k;
      assert k in multiset(order);
      var j :| 0 <= j < |order| && order[j] == k;
      assert digits[j] == coordinates[k];
    }
  }

  // ----- the rank a flat bank lies in

  /** Rank coordinate of `flat` in interleave order, `fallback` when Rank is no bank level. */
  function RankDigit(
    flat: int, positions: seq<int>, counts: seq<int>, rankLevel: int, fallback: int): (rank: int)
    requires |positions| == |counts| && Positive(counts)
  {
    var k := IndexOf(positions, rankLevel);
    if k.None? then fallback else Digits(flat, counts)[k.value]
  }

  /** What the scan over the bank levels below `i` makes of `rank`. */
  function ScannedRank(v: int, positions: seq<int>, counts: seq<int>, rankLevel: int, rank: int, i: nat): int
    requires i <= |positions| == |counts| && Positive(counts)
    decreases i
  {
    if i == 0 then rank
    else ScannedRank(Quot(v, counts[i - 1]), positions, counts, rankLevel,
                     if positions[i - 1] == rankLevel then Rem(v, counts[i - 1]) else rank, i - 1)
  }

  /** The scan keeps the coordinate of the one level that is Rank. */
  lemma {:induction false} ScanFindsRank(v: int, positions: seq<int>, counts: seq<int>, rankLevel: int, rank: int, i: nat)
    requires i <= |positions| == |counts| && Distinct(positions) && Positive(counts)
    ensures rankLevel !in positions[..i] ==> ScannedRank(v, positions, counts, rankLevel, rank, i) == rank
    ensures forall k :: 0 <= k < i && positions[k] == rankLevel ==>
      ScannedRank(v, positions, counts, rankLevel, rank, i) == Digits(v, counts[..i])[k]
    decreases i
  {
    if i > 0 {
      var next := if positions[i - 1] == rankLevel then Rem(v, counts[i - 1]) else rank;
      ScanFindsRank(Quot(v, counts[i - 1]), positions, counts, rankLevel, next, i - 1);
      assert counts[..i][..i - 1] == counts[..i - 1] && counts[..i][i - 1] == counts[i - 1];
      assert positions[..i] == positions[..i - 1] + [positions[i - 1]];
      assert forall k :: 0 <= k < i - 1 ==> positions[..i - 1][k] == positions[k];
    }
  }

  method RankForFlatBank(
    flat: int, positions: seq<int>, counts: seq<int>, rankLevel: int, fallback: int)
    returns (r: Result<int>)
    requires |positions| == |counts| && Distinct(positions) && Positive(counts)
    ensures r == if 0 <= flat < Product(counts)
                 then Ok(RankDigit(flat, positions, counts, rankLevel, fallback))
                 else Err(BankOutOfRange)
  {
    if flat < 0 || flat >= Product(counts) {
      return Err(BankOutOfRange);
    }
    var remaining, rank := flat, fallback;
    var i := |positions|;
    while i > 0
      invariant 0 <= i <= |positions|
      invariant ScannedRank(remaining, positions, counts, rankLevel, rank, i)
             == ScannedRank(flat, positions, counts, rankLevel, fallback, |positions|)
    {
      i := i - 1;
      var coordinate := Rem(remaining, counts[i]);
      remaining := Quot(remaining, counts[i]);
      if positions[i] == rankLevel {
        rank := coordinate;
      }
    }
    ScanFindsRank(flat, positions, counts, rankLevel, fallback, |positions|);
    assert positions[..|positions|] == positions && counts[..|counts|] == counts;
    return Ok(rank);
  }

  /** In interleave order the rank used for target selection is the one decomposition
      writes, wherever Rank stands. */
  lemma RankAgreesInInterleaveOrder(
    flat: int, addrVec: seq<int>, positions: seq<int>, counts: seq<int>, rankLevel: int)
    requires BankMap(positions, counts, |addrVec|) && 0 <= rankLevel < |addrVec|
    ensures RankDigit(flat, positions, counts, rankLevel, addrVec[rankLevel])
         == Place(flat, addrVec, positions, counts, BankOrder(positions, false))[rankLevel]
  {
    var order := BankOrder(positions, false);
    BankOrderDistinct(positions, false);
    PlaceWritesDigits(flat, addrVec, positions, counts, order);
    assert Permuted(counts, order) == counts;
    assert forall j :: 0 <= j < |order| ==> order[j] == j;
    var k := IndexOf(positions, rankLevel);
    if k.Some? {
      assert positions[order[k.value]] == rankLevel;
    }
  }

  /** Rank stands first, in the list and in the hierarchy, as the layout builds it. */
  predicate RankLeads(positions: seq<int>, rankLevel: int) {
    |positions| > 0 && positions[0] == rankLevel
    && forall i :: 0 <= i < |positions| ==> rankLevel <= positions[i]
  }

  lemma ControllerOrderLeads(positions: seq<int>, rankLevel: int, controllerOrder: bool)
    requires Distinct(positions) && RankLeads(positions, rankLevel)
    ensures var order := BankOrder(positions, controllerOrder);
            |order| == |positions| && order[0] == 0
  {
    var order := BankOrder(positions, controllerOrder);
    BankOrderDistinct(positions, controllerOrder);
    assert Identity(|positions|)[0] == 0;
    assert 0 in multiset(order);
    var j :| 0 <= j < |order| && order[j] == 0;
    assert j == 0;
  }

  lemma SameTailProduct(a: seq<int>, b: seq<int>)
    requires |a| > 0 && |b| > 0 && a[0] == b[0] && multiset(a) == multiset(b)
    ensures Product(a[1..]) == Product(b[1..])
  {
    assert a == [a[0]] + a[1..] && b == [b[0]] + b[1..];
    assert multiset(a[1..]) == multiset(a) - multiset{a[0]};
    assert multiset(b[1..]) == multiset(b) - multiset{b[0]};
    ProductPermutation(a[1..], b[1..]);
  }

  /** With Rank first both orders give the same rank. */
  lemma RankAgreesInEitherOrder(
    flat: int, addrVec: seq<int>, positions: seq<int>, counts: seq<int>, rankLevel: int, controllerOrder: bool)
    requires BankMap(positions, counts, |addrVec|) && 0 <= rankLevel < |addrVec|
    requires RankLeads(positions, rankLevel) && 0 <= flat < Product(counts)
    ensures RankDigit(flat, positions, counts, rankLevel, addrVec[rankLevel])
         == Place(flat, addrVec, positions, counts, BankOrder(positions, controllerOrder))[rankLevel]
  {
    var order := BankOrder(positions, controllerOrder);
    var permuted := Permuted(counts, order);
    BankOrderDistinct(positions, controllerOrder);
    ControllerOrderLeads(positions, rankLevel, controllerOrder);
    PlaceWritesDigits(flat, addrVec, positions, counts, order);
    assert Place(flat, addrVec, positions, counts, order)[rankLevel] == Digits(flat, permuted)[0];
    PermutedTotal(positions, counts, controllerOrder);
    assert permuted[0] == counts[0];
    assert multiset(permuted) == multiset(counts) by {
      PermutedMultiset(counts, order, Identity(|positions|));
      assert Permuted(counts, Identity(|positions|)) == counts;
    }
    SameTailProduct(permuted, counts);
    LeadingDigit(flat, counts);
    LeadingDigit(flat, permuted);
    assert IndexOf(positions, rankLevel) == Some(0);
  }

  /** Every rank is reached by some flat bank below the total, wherever Rank stands. */
  lemma EveryRankHasABank(positions: seq<int>, counts: seq<int>, rankLevel: int, k: nat, rank: int, fallback: int)
    returns (flat: int)
    requires |positions| == |counts| && Positive(counts) && Distinct(positions)
    requires k < |positions| && positions[k] == rankLevel && 0 <= rank < counts[k]
    ensures 0 <= flat < Product(counts)
    ensures RankDigit(flat, positions, counts, rankLevel, fallback) == rank
  {
    var digits := seq(|counts|, _ => 0)[k := rank];
    assert InRange(digits, counts) by {
      forall i | 0 <= i < |digits| ensures 0 <= digits[i] < counts[i] {
        assert counts[i] > 0;
      }
    }
    flat := Value(digits, counts);
    ValueBelowProduct(digits, counts);
    DigitsOfValue(digits, counts);
  }

  // ----- the bank order of a resolved layout

  function MoveToBack<T>(s: seq<T>, i: nat): (r: seq<T>)
    requires i < |s|
    ensures |r| == |s|
    ensures multiset(r) == multiset(s)
    ensures i > 0 ==> r[0] == s[0]
  {
    assert s == s[..i] + [s[i]] + s[i + 1..];
    s[..i] + s[i + 1..] + [s[i]]
  }

  /** One step of the `for name in ("BankGroup", "PseudoChannel")` loop: the level goes
      to the fast end of both lists; a level outside Rank..Bank is `list.index`'s error. */
  function RotateLevel(names: seq<string>, name: string, banks: (seq<int>, seq<int>)): (r: Result<(seq<int>, seq<int>)>)
    requires |banks.0| == |banks.1|
    ensures r.Ok? ==> |r.value.0| == |r.value.1| == |banks.0|
  {
    var pos := IndexOf(names, name);
    if pos.None? then Ok(banks)
    else
      var at := IndexOf(banks.0, pos.value as int);
      if at.None? then Err(BadLayout)
      else Ok((MoveToBack(banks.0, at.value), MoveToBack(banks.1, at.value)))
  }

  function LayoutBanks(names: seq<string>, sizes: seq<int>, rankPos: nat, bankPos: nat): (r: Result<(seq<int>, seq<int>)>)
    requires rankPos <= bankPos < |sizes|
    ensures r.Ok? ==> |r.value.0| == |r.value.1|
  {
    var positions := seq(bankPos + 1 - rankPos, i => rankPos + i);
    var counts := sizes[rankPos..bankPos + 1];
    var grouped :- RotateLevel(names, "BankGroup", (positions, counts));
    RotateLevel(names, "PseudoChannel", grouped)
  }

  predicate CountsFollow(positions: seq<int>, counts: seq<int>, sizes: seq<int>) {
    && |positions| == |counts|
    && forall i :: 0 <= i < |positions| ==> 0 <= positions[i] < |sizes| && counts[i] == sizes[positions[i]]
  }

  lemma RotateLevelKeeps(
    names: seq<string>, name: string, banks: (seq<int>, seq<int>), sizes: seq<int>, rankPos: int)
    requires CountsFollow(banks.0, banks.1, sizes) && Distinct(banks.0) && RankLeads(banks.0, rankPos)
    requires 0 <= rankPos < |names| && names[rankPos] == "Rank" && name != "Rank"
    ensures var r := RotateLevel(names, name, banks);
            r.Ok? ==> && CountsFollow(r.value.0, r.value.1, sizes)
                      && Distinct(r.value.0) && RankLeads(r.value.0, rankPos)
                      && multiset(r.value.0) == multiset(banks.0)
                      && multiset(r.value.1) == multiset(banks.1)
  {
    var r := RotateLevel(names, name, banks);
    var pos := IndexOf(names, name);
    if r.Ok? && pos.Some? {
      var at := IndexOf(banks.0, pos.value as int).value;
      assert at > 0;
      MovedKeeps(banks.0, banks.1, sizes, rankPos, at);
    }
  }

  function BackIndex(i: nat, at: nat, n: nat): nat {
    if i < at then i else if i + 1 < n then i + 1 else at
  }

  /** Moving one level to the back, in both lists. */
  lemma MovedKeeps(positions: seq<int>, counts: seq<int>, sizes: seq<int>, rankPos: int, at: nat)
    requires CountsFollow(positions, counts, sizes) && Distinct(positions) && RankLeads(positions, rankPos)
    requires 0 < at < |positions|
    ensures CountsFollow(MoveToBack(positions, at), MoveToBack(counts, at), sizes)
    ensures Distinct(MoveToBack(positions, at)) && RankLeads(MoveToBack(positions, at), rankPos)
  {
    var moved := MoveToBack(positions, at);
    assert forall i :: 0 <= i < |positions| ==> moved[i] == positions[BackIndex(i, at, |positions|)];
    assert forall i :: 0 <= i < |counts| ==> MoveToBack(counts, at)[i] == counts[BackIndex(i, at, |counts|)];
    assert forall i, j :: 0 <= i < j < |positions| ==> BackIndex(i, at, |positions|) != BackIndex(j, at, |positions|);
  }

  /** A resolved layout lists each level from Rank through Bank once with its size, and
      keeps Rank first: the assumptions of the rank lemmas above hold of every layout. */
  lemma LayoutBanksLeadWithRank(names: seq<string>, sizes: seq<int>, rankPos: nat, bankPos: nat)
    requires |names| == |sizes| && Positive(sizes)
    requires rankPos <= bankPos < |names| && names[rankPos] == "Rank"
    requires LayoutBanks(names, sizes, rankPos, bankPos).Ok?
    ensures var (positions, counts) := LayoutBanks(names, sizes, rankPos, bankPos).value;
            && BankMap(positions, counts, |names|)
            && RankLeads(positions, rankPos)
            && CountsFollow(positions, counts, sizes)
            && Product(counts) == Product(sizes[rankPos..bankPos + 1])
  {
    var positions := seq(bankPos + 1 - rankPos, i => rankPos + i);
    var counts := sizes[rankPos..bankPos + 1];
    RotateLevelKeeps(names, "BankGroup", (positions, counts), sizes, rankPos);
    var grouped := RotateLevel(names, "BankGroup", (positions, counts)).value;
    RotateLevelKeeps(names, "PseudoChannel", grouped, sizes, rankPos);
    ProductPermutation(LayoutBanks(names, sizes, rankPos, bankPos).value.1, counts);
  }
}
