/**
 Positional numerals, least significant digit first, in any base.  Every number has exactly one numeral
 without a superfluous top zero; that is all the text codecs below rest on.
 */
module Radix {

  predicate DigitsIn(ds: seq<nat>, base: nat) {
    forall i :: 0 <= i < |ds| ==> ds[i] < base
  }

  function Val(ds: seq<nat>, base: nat): nat {
    if ds == [] then 0 else ds[0] + base * Val(ds[1..], base)
  }

  predicate Canonical(ds: seq<nat>, base: nat) {
    DigitsIn(ds, base) && (ds == [] || ds[|ds| - 1] != 0)
  }

  function ToDigits(n: nat, base: nat): (ds: seq<nat>)
    requires base >= 2
    ensures Canonical(ds, base) && Val(ds, base) == n
    decreases n
  {
    if n == 0 then []
    else
      DivSmaller(n, base);
      var rest := ToDigits(n / base, base);
      [n % base] + rest
  }

  lemma MulMonotone(a: int, b: int, c: nat)
    requires a <= b
    ensures a * c <= b * c
  {
  }

  lemma DivSmaller(n: nat, base: nat)
    requires base >= 2 && n > 0
    ensures 0 <= n / base < n && n % base < base && n == n % base + base * (n / base)
  {
    MulMonotone(2, base, n / base);
  }

  lemma SmallMultiple(base: nat, k: int)
    requires -(base as int) < base * k < base
    ensures k == 0
  {
  }

  lemma DivModUnique(base: nat, d: nat, v: nat)
    requires d < base
    ensures (d + base * v) % base == d && (d + base * v) / base == v
  {
    var n := d + base * v;
    assert base * (n / base - v) == d - n % base;
    SmallMultiple(base, n / base - v);
  }

  /** A numeral without top zeros is the numeral of its value. */
  lemma {:induction false} CanonicalUnique(ds: seq<nat>, base: nat)
    requires base >= 2 && Canonical(ds, base)
    ensures ds == ToDigits(Val(ds, base), base)
    decreases |ds|
  {
    if ds != [] {
      CanonicalUnique(ds[1..], base);
      DivModUnique(base, ds[0], Val(ds[1..], base));
      PositiveVal(ds, base);
    }
  }

  lemma {:induction false} PositiveVal(ds: seq<nat>, base: nat)
    requires base >= 2 && ds != [] && ds[|ds| - 1] != 0
    ensures Val(ds, base) > 0
    decreases |ds|
  {
    if |ds| > 1 {
      PositiveVal(ds[1..], base);
      assert base * Val(ds[1..], base) > 0;
    }
  }

  // ----- Zeros at the top -----

  function Zeros(k: nat): (z: seq<nat>)
    ensures |z| == k && forall i :: 0 <= i < k ==> z[i] == 0
  {
    seq(k, _ => 0)
  }

  function TopZeros(ds: seq<nat>): (k: nat)
    ensures k <= |ds|
  {
    if ds == [] || ds[|ds| - 1] != 0 then 0 else 1 + TopZeros(ds[..|ds| - 1])
  }

  function StripTop(ds: seq<nat>): seq<nat> {
    ds[..|ds| - TopZeros(ds)]
  }

  lemma {:induction false} StripTopCanonical(ds: seq<nat>, base: nat)
    requires DigitsIn(ds, base)
    ensures Canonical(StripTop(ds), base) && ds == StripTop(ds) + Zeros(TopZeros(ds))
    ensures Val(StripTop(ds), base) == Val(ds, base)
    decreases |ds|
  {
    if ds != [] && ds[|ds| - 1] == 0 {
      var init := ds[..|ds| - 1];
      StripTopCanonical(init, base);
      assert StripTop(ds) == StripTop(init);
      assert ds == init + Zeros(1);
      assert Zeros(TopZeros(ds)) == Zeros(TopZeros(init)) + Zeros(1);
      ValPadded(init, 1, base);
    } else {
      assert StripTop(ds) == ds;
    }
  }

  lemma {:induction false} ValPadded(ds: seq<nat>, k: nat, base: nat)
    ensures Val(ds + Zeros(k), base) == Val(ds, base)
    decreases |ds| + k
  {
    if ds != [] {
      assert (ds + Zeros(k))[1..] == ds[1..] + Zeros(k);
      ValPadded(ds[1..], k, base);
    } else if k > 0 {
      assert (ds + Zeros(k))[1..] == [] + Zeros(k - 1);
      ValPadded([], k - 1, base);
    }
  }

  lemma {:induction false} TopZerosPadded(ds: seq<nat>, k: nat)
    requires ds == [] || ds[|ds| - 1] != 0
    ensures TopZeros(ds + Zeros(k)) == k && StripTop(ds + Zeros(k)) == ds
    decreases k
  {
    if k > 0 {
      assert (ds + Zeros(k))[..|ds| + k - 1] == ds + Zeros(k - 1);
      TopZerosPadded(ds, k - 1);
    }
  }

  // ----- Changing base -----

  /** The same number in another base, with as many top zeros as before. */
  function Convert(ds: seq<nat>, from: nat, to: nat): (r: seq<nat>)
    requires to >= 2
    ensures DigitsIn(r, to) && Val(r, to) == Val(ds, from)
  {
    ValPadded(ToDigits(Val(ds, from), to), TopZeros(ds), to);
    ToDigits(Val(ds, from), to) + Zeros(TopZeros(ds))
  }

  /** Changing base and back is the identity. */
  lemma ConvertRoundTrip(ds: seq<nat>, a: nat, b: nat)
    requires a >= 2 && b >= 2 && DigitsIn(ds, a)
    ensures Convert(Convert(ds, a, b), b, a) == ds
  {
    TopZerosPadded(ToDigits(Val(ds, a), b), TopZeros(ds));
    StripTopCanonical(ds, a);
    CanonicalUnique(StripTop(ds), a);
  }

  // ----- Reading from the top -----

  function Reverse<T>(s: seq<T>): (r: seq<T>)
    ensures |r| == |s| && forall i :: 0 <= i < |s| ==> r[i] == s[|s| - 1 - i]
  {
    seq(|s|, i requires 0 <= i < |s| => s[|s| - 1 - i])
  }

  lemma ReverseTwice<T>(s: seq<T>)
    ensures Reverse(Reverse(s)) == s
  {
  }
}
