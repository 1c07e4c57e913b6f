/** The byte-address map of python/ramulator/dram/addressing.py. */
module Addressing {
  import opened Division
  import opened MixedRadix
  import opened Results

  /** The part of a resolved DRAM layout the trace pipeline reads. */
  datatype Layout = Layout(
    levelNames: seq<string>,
    levelSizes: seq<int>,
    prefetch: int,
    txBytes: int,
    capacityBytes: int,
    bankPositions: seq<int>,
    bankCounts: seq<int>)

  function AllButLast(s: seq<int>): seq<int>
    requires |s| > 0
  {
    s[..|s| - 1]
  }

  /** Column coordinates count internal-prefetch units, every other level is as sized. */
  function Radices(sizes: seq<int>, prefetch: int): (radices: seq<int>)
    requires |sizes| > 0 && prefetch > 0
    ensures |radices| == |sizes|
  {
    AllButLast(sizes) + [Quot(sizes[|sizes| - 1], prefetch)]
  }

  /** The checks the mapper makes on the layout, in its order. */
  predicate WellFormedLayout(names: seq<string>, sizes: seq<int>, prefetch: int, txBytes: int) {
    && |names| == |sizes| > 0
    && names[|names| - 1] == "Column"
    && Positive(sizes)
    && prefetch > 0 && Rem(sizes[|sizes| - 1], prefetch) == 0
    && txBytes > 0
  }

  lemma RadicesPositive(sizes: seq<int>, prefetch: int)
    requires |sizes| > 0 && Positive(sizes) && prefetch > 0
    requires Rem(sizes[|sizes| - 1], prefetch) == 0
    ensures Positive(Radices(sizes, prefetch))
    ensures forall i :: 0 <= i < |sizes| ==> Radices(sizes, prefetch)[i] <= sizes[i]
    ensures Product(Radices(sizes, prefetch)) >= 1
  {
    var last := sizes[|sizes| - 1];
    var q := Quot(last, prefetch);
    QuotRem(last, prefetch);
    assert q >= 1 by {
      if q <= 0 {
        MulMonotone(q, 0, prefetch);
        assert false;
      }
    }
    MulMonotone(1, prefetch, q);
    ProductPositive(Radices(sizes, prefetch));
  }

  /** What the mapper computes: the digits of the transaction number. */
  function MapAddress(
    address: int, names: seq<string>, sizes: seq<int>, prefetch: int, txBytes: int): Result<seq<int>>
  {
    if address < 0 then Err(NegativeAddress)
    else if !WellFormedLayout(names, sizes, prefetch, txBytes) then Err(BadLayout)
    else
      var radices := Radices(sizes, prefetch);
      RadicesPositive(sizes, prefetch);
      if address >= txBytes * Product(radices) then Err(OutOfCapacity)
      else Ok(Digits(Quot(address, txBytes), radices))
  }

  /** `validate_addr_vec` without wildcards. */
  method ValidateAddrVec(addrVec: seq<int>, names: seq<string>, sizes: seq<int>) returns (ok: bool)
    ensures ok <==> |names| == |sizes| && InRange(addrVec, sizes)
  {
    if |names| != |sizes| || |addrVec| != |names| {
      return false;
    }
    for i := 0 to |addrVec|
      invariant forall k :: 0 <= k < i ==> 0 <= addrVec[k] < sizes[k]
    {
      if addrVec[i] < 0 || addrVec[i] >= sizes[i] {
        return false;
      }
    }
    return true;
  }

  lemma DigitStep(value: int, radices: seq<int>, index: nat)
    requires index < |radices| && Positive(radices)
    requires 0 <= value < Product(radices[..index + 1])
    ensures 0 <= Quot(value, radices[index]) < Product(radices[..index])
    ensures Digits(value, radices[..index + 1])
         == Digits(Quot(value, radices[index]), radices[..index]) + [Rem(value, radices[index])]
  {
    assert radices[..index + 1][..index] == radices[..index];
    QuotBelow(value, Product(radices[..index]), radices[index]);
  }

  /** The mapper's loop: one digit per level, from the last level up. */
  method FillDigits(transaction: int, radices: seq<int>) returns (addrVec: array<int>, value: int)
    requires Positive(radices) && 0 <= transaction < Product(radices)
    ensures fresh(addrVec) && addrVec[..] == Digits(transaction, radices)
    ensures value == 0
  {
    var n := |radices|;
    addrVec := new int[n](_ => 0);
    value := transaction;
    var index := n;
    assert radices[..n] == radices;
    while index > 0
      invariant 0 <= index <= n
      invariant 0 <= value < Product(radices[..index])
      invariant Digits(transaction, radices) == Digits(value, radices[..index]) + addrVec[index..]
    {
      index := index - 1;
      DigitStep(value, radices, index);
      ghost var done := addrVec[index + 1..];
      addrVec[index] := Rem(value, radices[index]);
      assert addrVec[index..] == [addrVec[index]] + done;
      value := Quot(value, radices[index]);
    }
    assert radices[..0] == [];
  }

  /** The mapper.  Its two late failures (a leftover value, a coordinate outside the
      hierarchy) are kept; that the result equals MapAddress, which has neither, shows
      they cannot happen. */
  method AddrVecFromByteAddress(
    address: int, names: seq<string>, sizes: seq<int>, prefetch: int, txBytes: int)
    returns (r: Result<seq<int>>)
    ensures r == MapAddress(address, names, sizes, prefetch, txBytes)
  {
    if address < 0 {
      return Err(NegativeAddress);
    }
    if !WellFormedLayout(names, sizes, prefetch, txBytes) {
      return Err(BadLayout);
    }
    var radices := Radices(sizes, prefetch);
    RadicesPositive(sizes, prefetch);
    if address >= txBytes * Product(radices) {
      return Err(OutOfCapacity);
    }
    QuotBelow(address, Product(radices), txBytes);
    var addrVec, leftover := FillDigits(Quot(address, txBytes), radices);
    if leftover != 0 {
      return Err(LeftoverAddress);
    }
    var valid := ValidateAddrVec(addrVec[..], names, sizes);
    if !valid {
      return Err(BadLayout);
    }
    return Ok(addrVec[..]);
  }

  /** Horner evaluation of the mapped vector gives the transaction back, so two
      addresses share a vector exactly when they share a transaction. */
  lemma MapIdentifiesTransaction(
    a: int, b: int, names: seq<string>, sizes: seq<int>, prefetch: int, txBytes: int)
    requires MapAddress(a, names, sizes, prefetch, txBytes).Ok?
    requires MapAddress(b, names, sizes, prefetch, txBytes).Ok?
    ensures var va, vb := MapAddress(a, names, sizes, prefetch, txBytes).value,
                          MapAddress(b, names, sizes, prefetch, txBytes).value;
            && |va| == |sizes|
            && Value(va, Radices(sizes, prefetch)) == Quot(a, txBytes)
            && InRange(va, sizes)
            && (va == vb <==> Quot(a, txBytes) == Quot(b, txBytes))
  {
    var radices := Radices(sizes, prefetch);
    RadicesPositive(sizes, prefetch);
    QuotBelow(a, Product(radices), txBytes);
    QuotBelow(b, Product(radices), txBytes);
    ValueOfDigits(Quot(a, txBytes), radices);
    ValueOfDigits(Quot(b, txBytes), radices);
  }

  /** Every coordinate vector of the hierarchy is the image of exactly the `txBytes`
      consecutive addresses of one transaction below capacity. */
  lemma MapIsOnto(
    digits: seq<int>, byteInTransaction: int,
    names: seq<string>, sizes: seq<int>, prefetch: int, txBytes: int)
    requires WellFormedLayout(names, sizes, prefetch, txBytes)
    requires InRange(digits, Radices(sizes, prefetch)) && 0 <= byteInTransaction < txBytes
    ensures var address := Value(digits, Radices(sizes, prefetch)) * txBytes + byteInTransaction;
            && 0 <= address < txBytes * Product(Radices(sizes, prefetch))
            && MapAddress(address, names, sizes, prefetch, txBytes) == Ok(digits)
  {
    var radices := Radices(sizes, prefetch);
    RadicesPositive(sizes, prefetch);
    ValueBelowProduct(digits, radices);
    var t := Value(digits, radices);
    var address := t * txBytes + byteInTransaction;
    MulMonotone(0, t, txBytes);
    MulMonotone(t, Product(radices) - 1, txBytes);
    assert (Product(radices) - 1) * txBytes == txBytes * Product(radices) - txBytes;
    QuotUnique(address, txBytes, t, byteInTransaction);
    DigitsOfValue(digits, radices);
  }

  function IndexOf<T(==)>(s: seq<T>, x: T): (i: Option<nat>)
    ensures i.None? <==> x !in s
    ensures i.Some? ==> i.value < |s| && s[i.value] == x && x !in s[..i.value]
  {
    if |s| == 0 then None
    else if s[0] == x then Some(0)
    else
      var rest := IndexOf(s[1..], x);
      if rest.None? then None
      else
        assert s[..rest.value + 1] == [s[0]] + s[1..][..rest.value];
        Some(rest.value + 1)
  }
}
