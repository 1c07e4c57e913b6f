/** Mixed-radix numerals, most significant digit first.  Both address maps of the
    trace pipeline (byte address -> hierarchy vector, flat bank -> bank coordinates)
    are instances of this module. */
module MixedRadix {
  import opened Division

  predicate Positive(radices: seq<int>) {
    forall i :: 0 <= i < |radices| ==> radices[i] > 0
  }

  predicate InRange(digits: seq<int>, radices: seq<int>) {
    |digits| == |radices| && forall i :: 0 <= i < |digits| ==> 0 <= digits[i] < radices[i]
  }

  function Product(radices: seq<int>): int {
    if |radices| == 0 then 1
    else Product(radices[..|radices| - 1]) * radices[|radices| - 1]
  }

  /** The digits of `v`; whatever does not fit above the first digit is dropped. */
  function Digits(v: int, radices: seq<int>): (digits: seq<int>)
    requires Positive(radices)
    ensures InRange(digits, radices)
    decreases |radices|
  {
    if |radices| == 0 then []
    else
      var last := radices[|radices| - 1];
      Digits(Quot(v, last), radices[..|radices| - 1]) + [Rem(v, last)]
  }

  /** Horner evaluation, the value a digit vector stands for. */
  function Value(digits: seq<int>, radices: seq<int>): int
    requires |digits| == |radices|
  {
    if |digits| == 0 then 0
    else
      var n := |digits| - 1;
      Value(digits[..n], radices[..n]) * radices[n] + digits[n]
  }

  lemma {:induction false} ProductPositive(radices: seq<int>)
    requires Positive(radices)
    ensures Product(radices) >= 1
  {
    if |radices| > 0 {
      ProductPositive(radices[..|radices| - 1]);
      MulPositive(Product(radices[..|radices| - 1]), radices[|radices| - 1]);
    }
  }

  /** Digits and Value are inverse on the numbers that fit. */
  lemma {:induction false} ValueOfDigits(v: int, radices: seq<int>)
    requires Positive(radices) && 0 <= v < Product(radices)
    ensures Value(Digits(v, radices), radices) == v
    decreases |radices|
  {
    if |radices| > 0 {
      var n := |radices| - 1;
      var last := radices[n];
      QuotBelow(v, Product(radices[..n]), last);
      ValueOfDigits(Quot(v, last), radices[..n]);
      assert Digits(v, radices)[..n] == Digits(Quot(v, last), radices[..n]);
      QuotRem(v, last);
    }
  }

  lemma {:induction false} ValueBelowProduct(digits: seq<int>, radices: seq<int>)
    requires InRange(digits, radices)
    ensures 0 <= Value(digits, radices) < Product(radices)
  {
    if |digits| > 0 {
      var n := |digits| - 1;
      ValueBelowProduct(digits[..n], radices[..n]);
      var hi, p, r := Value(digits[..n], radices[..n]), Product(radices[..n]), radices[n];
      MulMonotone(0, hi, r);
      MulMonotone(hi, p - 1, r);
      assert (p - 1) * r == p * r - r;
    }
  }

  lemma {:induction false} DigitsOfValue(digits: seq<int>, radices: seq<int>)
    requires Positive(radices) && InRange(digits, radices)
    ensures Digits(Value(digits, radices), radices) == digits
  {
    if |digits| > 0 {
      var n := |digits| - 1;
      DigitsOfValue(digits[..n], radices[..n]);
      QuotUnique(Value(digits, radices), radices[n], Value(digits[..n], radices[..n]), digits[n]);
      assert digits == digits[..n] + [digits[n]];
    }
  }

  /** The most significant digit is read off by dividing by the product of the rest. */
  lemma {:induction false} LeadingDigit(v: int, radices: seq<int>)
    requires Positive(radices) && |radices| > 0
    requires 0 <= v < Product(radices)
    ensures Product(radices[1..]) >= 1
    ensures Digits(v, radices)[0] == Quot(v, Product(radices[1..]))
    decreases |radices|
  {
    ProductPositive(radices[1..]);
    var n := |radices| - 1;
    var last := radices[n];
    if n == 0 {
      assert radices[1..] == [];
      assert radices[..n] == [] && Product(radices) == last;
      QuotSmall(v, last);
      QuotUnique(v, 1, v, 0);
    } else {
      QuotBelow(v, Product(radices[..n]), last);
      LeadingDigit(Quot(v, last), radices[..n]);
      var mid := radices[1..];
      assert mid[..|mid| - 1] == radices[..n][1..];
      QuotQuot(v, last, Product(radices[..n][1..]));
    }
  }

  /** The product does not depend on the order of the factors. */
  lemma {:induction false} ProductPermutation(a: seq<int>, b: seq<int>)
    requires multiset(a) == multiset(b)
    ensures Product(a) == Product(b)
  {
    if |a| == 0 {
      assert |multiset(b)| == 0;
      assert b == [];
    } else {
      var n := |a| - 1;
      var x := a[n];
      assert a == a[..n] + [x];
      assert x in multiset(a);
      assert x in multiset(b);
      var k :| 0 <= k < |b| && b[k] == x;
      RemoveAt(b, k);
      ProductPermutation(a[..n], b[..k] + b[k + 1..]);
      ProductPull(b, k);
    }
  }

  lemma RemoveAt<T>(b: seq<T>, k: nat)
    requires k < |b|
    ensures multiset(b) - multiset{b[k]} == multiset(b[..k] + b[k + 1..])
  {
    assert b == b[..k] + [b[k]] + b[k + 1..];
  }

  lemma {:induction false} ProductPull(b: seq<int>, k: nat)
    requires k < |b|
    ensures Product(b) == Product(b[..k] + b[k + 1..]) * b[k]
  {
    var n := |b| - 1;
    var rest := b[..k] + b[k + 1..];
    if k == n {
      assert rest == b[..n];
    } else {
      ProductPull(b[..n], k);
      var inner := b[..n][..k] + b[..n][k + 1..];
      assert rest[..|rest| - 1] == inner && rest[|rest| - 1] == b[n];
      Swap(Product(inner), b[k], b[n]);
    }
  }

  lemma Swap(p: int, x: int, y: int)
    ensures (p * x) * y == (p * y) * x
  {
  }
}
