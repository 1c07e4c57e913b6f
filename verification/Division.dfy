/** Floor division by a positive divisor, as Python's `//` and `%`, with the few
    nonlinear facts the other modules need. */
module Division {

  function Quot(v: int, r: int): (q: int)
    requires r > 0
    ensures v >= 0 ==> q >= 0
  {
    v / r
  }

  function Rem(v: int, r: int): (m: int)
    requires r > 0
    ensures 0 <= m < r
  {
    v % r
  }

  /** Python's `-(-n // d)` idiom `(n + d - 1) // d`. */
  function CeilDiv(n: int, d: int): int
    requires d > 0
  {
    Quot(n + d - 1, d)
  }

  function Min(a: int, b: int): int {
    if a <= b then a else b
  }

  function Max(a: int, b: int): int {
    if a >= b then a else b
  }

  lemma QuotRem(v: int, r: int)
    requires r > 0
    ensures v == Quot(v, r) * r + Rem(v, r)
  {
  }

  lemma QuotUnique(v: int, r: int, q: int, m: int)
    requires r > 0 && v == q * r + m && 0 <= m < r
    ensures Quot(v, r) == q && Rem(v, r) == m
  {
    QuotRem(v, r);
    var e := q - Quot(v, r);
    assert e * r == Rem(v, r) - m;
    assert e >= 1 ==> e * r >= r;
    assert e <= -1 ==> e * r <= -r;
  }

  lemma QuotSmall(v: int, r: int)
    requires 0 <= v < r
    ensures Quot(v, r) == 0 && Rem(v, r) == v
  {
    QuotUnique(v, r, 0, v);
  }

  lemma QuotBelow(v: int, p: int, r: int)
    requires r > 0 && v < p * r
    ensures Quot(v, r) < p
  {
    QuotRem(v, r);
    var q := Quot(v, r);
    if q >= p {
      MulMonotone(p, q, r);
      assert false;
    }
  }

  lemma MulMonotone(a: int, b: int, r: int)
    requires a <= b && r >= 0
    ensures a * r <= b * r
  {
  }

  lemma MulPositive(a: int, b: int)
    requires a >= 1 && b >= 1
    ensures a * b >= 1
    ensures a * b >= a && a * b >= b
  {
    MulMonotone(1, a, b);
    MulMonotone(1, b, a);
  }

  lemma QuotQuot(v: int, a: int, b: int)
    requires a >= 1 && b >= 1
    ensures b * a >= 1
    ensures Quot(Quot(v, a), b) == Quot(v, b * a)
  {
    MulPositive(b, a);
    var q := Quot(v, a);
    var t := Quot(q, b);
    QuotRem(v, a);
    QuotRem(q, b);
    var rest := Rem(q, b) * a + Rem(v, a);
    Regroup(v, q, t, a, b, Rem(q, b), Rem(v, a));
    MulMonotone(0, Rem(q, b), a);
    MulMonotone(Rem(q, b), b - 1, a);
    assert (b - 1) * a == b * a - a;
    QuotUnique(v, b * a, t, rest);
  }

  lemma Regroup(v: int, q: int, t: int, a: int, b: int, x: int, y: int)
    requires v == q * a + y && q == t * b + x
    ensures v == t * (b * a) + (x * a + y)
  {
    assert q * a == (t * b) * a + x * a;
    assert (t * b) * a == t * (b * a);
  }

  /** Adding a multiple of the divisor moves the quotient and keeps the remainder. */
  lemma AddMultiple(v: int, k: int, r: int)
    requires r > 0
    ensures Quot(v + k * r, r) == Quot(v, r) + k
    ensures Rem(v + k * r, r) == Rem(v, r)
  {
    QuotRem(v, r);
    assert (Quot(v, r) + k) * r == Quot(v, r) * r + k * r;
    QuotUnique(v + k * r, r, Quot(v, r) + k, Rem(v, r));
  }

  /** Reducing one summand first does not change the remainder of a sum. */
  lemma RemSum(a: int, b: int, r: int)
    requires r > 0
    ensures Rem(Rem(a, r) + b, r) == Rem(a + b, r)
  {
    QuotRem(a, r);
    AddMultiple(Rem(a, r) + b, Quot(a, r), r);
  }

  /** The ceiling is the least number of groups of `d` that hold `n`. */
  lemma CeilDivBounds(n: int, d: int)
    requires d > 0
    ensures CeilDiv(n, d) * d >= n
    ensures CeilDiv(n, d) * d < n + d
    ensures n >= 1 ==> CeilDiv(n, d) >= 1
  {
    QuotRem(n + d - 1, d);
    if n >= 1 && CeilDiv(n, d) <= 0 {
      MulMonotone(CeilDiv(n, d), 0, d);
      assert false;
    }
  }

  /** `n` times `each`, by repeated addition. */
  function Times(n: nat, each: int): int {
    if n == 0 then 0 else Times(n - 1, each) + each
  }

  lemma {:induction false} TimesIsProduct(n: nat, each: int)
    ensures Times(n, each) == n * each
    decreases n
  {
    if n > 0 {
      TimesIsProduct(n - 1, each);
    }
  }
}
