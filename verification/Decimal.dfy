/**
 Balances as decimal text: printing a raw integer balance with `decimals` places, and converting the
 text back to an 18-decimal integer, character by character as the program does it.
 */
module Decimal {
  import opened Wrappers
  import opened Text
  import R = Radix

  // ----- Powers of ten, and shifting by them one digit at a time -----

  function Pow10(n: nat): (p: nat)
    ensures p >= 1
  {
    if n == 0 then 1 else 10 * Pow10(n - 1)
  }

  function Scale(v: nat, k: nat): nat {
    if k == 0 then v else 10 * Scale(v, k - 1)
  }

  function Chop(v: nat, k: nat): nat {
    if k == 0 then v else Chop(v / 10, k - 1)
  }

  function Rest(v: nat, k: nat): nat {
    if k == 0 then 0 else 10 * Rest(v / 10, k - 1) + v % 10
  }

  lemma {:induction false} ScaleIsProduct(v: nat, k: nat)
    ensures Scale(v, k) == v * Pow10(k)
    decreases k
  {
    if k > 0 {
      ScaleIsProduct(v, k - 1);
      assert v * (10 * Pow10(k - 1)) == 10 * (v * Pow10(k - 1));
    }
  }

  lemma {:induction false} RestBound(v: nat, k: nat)
    ensures Rest(v, k) < Pow10(k)
    decreases k
  {
    if k > 0 { RestBound(v / 10, k - 1); }
  }

  lemma {:induction false} ChopRest(v: nat, k: nat)
    ensures v == Scale(Chop(v, k), k) + Rest(v, k)
    decreases k
  {
    if k > 0 { ChopRest(v / 10, k - 1); }
  }

  /** Chopping digits is dividing by the power of ten. */
  lemma ChopIsDivision(v: nat, k: nat)
    ensures v / Pow10(k) == Chop(v, k) && v % Pow10(k) == Rest(v, k)
  {
    ChopRest(v, k);
    RestBound(v, k);
    ScaleIsProduct(Chop(v, k), k);
    DivModOf(v, Pow10(k), Chop(v, k), Rest(v, k));
  }

  lemma DivModOf(v: nat, p: nat, q: nat, r: nat)
    requires r < p && v == q * p + r
    ensures v / p == q && v % p == r
  {
    R.DivModUnique(p, r, q);
  }

  lemma {:induction false} ChopOfRest(v: nat, d: nat, m: nat)
    requires m <= d
    ensures Chop(Rest(v, d), d - m) == Rest(Chop(v, d - m), m)
    decreases d - m
  {
    if m < d { ChopOfRest(v / 10, d - 1, m); }
  }

  lemma {:induction false} ChopChop(v: nat, a: nat, b: nat)
    ensures Chop(v, a + b) == Chop(Chop(v, a), b)
    decreases a
  {
    if a > 0 { ChopChop(v / 10, a - 1, b); }
  }

  lemma {:induction false} ScaleSum(q: nat, a: nat, r: nat, b: nat)
    ensures Scale(Scale(q, a) + r, b) == Scale(q, a + b) + Scale(r, b)
    decreases b
  {
    if b > 0 { ScaleSum(q, a, r, b - 1); }
  }

  lemma {:induction false} ChopSum(q: nat, a: nat, b: nat, r: nat)
    ensures Chop(Scale(q, a + b) + r, a) == Scale(q, b) + Chop(r, a)
    decreases a
  {
    if a > 0 {
      assert (10 * Scale(q, a - 1 + b) + r) / 10 == Scale(q, a - 1 + b) + r / 10;
      ChopSum(q, a - 1, b, r / 10);
    }
  }

  predicate AllDigits(s: string) {
    forall i :: 0 <= i < |s| ==> '0' <= s[i] <= '9'
  }

  function DigitChar(d: nat): (c: char)
    requires d < 10
    ensures '0' <= c <= '9'
  {
    ('0' as nat + d) as char
  }

  /** BigInt's toString. */
  function Print(n: nat): (s: string)
    ensures AllDigits(s) && |s| >= 1
  {
    if n < 10 then [DigitChar(n)] else Print(n / 10) + [DigitChar(n % 10)]
  }

  /** BigInt of a string of digits; the empty string is zero. */
  function IntOf(s: string): nat
    requires AllDigits(s)
  {
    if s == "" then 0 else 10 * IntOf(s[..|s| - 1]) + (s[|s| - 1] as nat - '0' as nat)
  }

  function PadStart(s: string, n: nat): string {
    if |s| >= n then s else Repeat('0', n - |s|) + s
  }

  function PadEnd(s: string, n: nat): string {
    if |s| >= n then s else s + Repeat('0', n - |s|)
  }

  function Slice(s: string, n: nat): string {
    if |s| <= n then s else s[..n]
  }

  function TrailingZeros(s: string): (k: nat)
    ensures k <= |s|
  {
    if s == "" || s[|s| - 1] != '0' then 0 else 1 + TrailingZeros(s[..|s| - 1])
  }

  /** It counts a maximal run of zeros. */
  lemma {:induction false} TrailingZerosRun(s: string)
    ensures var k := TrailingZeros(s);
      (forall i :: |s| - k <= i < |s| ==> s[i] == '0') && (k < |s| ==> s[|s| - 1 - k] != '0')
    decreases |s|
  {
    if s != "" { TrailingZerosRun(s[..|s| - 1]); }
  }

  /** Without its last k characters, nor a point just before them. */
  function Cut(s: string, k: nat): string
    requires k <= |s|
  {
    if k > 0 && k < |s| && s[|s| - 1 - k] == '.' then s[..|s| - 1 - k] else s[..|s| - k]
  }

  /** replace(/\.?0+$/, ''): trailing zeros go, and then a point just before them. */
  function StripZeros(s: string): string {
    Cut(s, TrailingZeros(s))
  }

  /** BigInt division of non-negative operands. */
  function Quotient(x: nat, p: nat): nat
    requires p >= 1
  {
    x / p
  }

  function Remainder(x: nat, p: nat): nat
    requires p >= 1
  {
    x % p
  }

  /** A balance `x` with `decimals` places, of which at most `shown` are printed. */
  function Format(x: nat, decimals: nat, shown: nat): string {
    var whole := Print(Quotient(x, Pow10(decimals)));
    var frac := Slice(PadStart(Print(Remainder(x, Pow10(decimals))), decimals), shown);
    var text := StripZeros(whole + "." + frac);
    if text == "" then "0" else text
  }

  function NextPoint(s: string, from: nat): (k: nat)
    requires from <= |s|
    ensures from <= k <= |s| && (k < |s| ==> s[k] == '.') && forall i :: from <= i < k ==> s[i] != '.'
    decreases |s| - from
  {
    if from == |s| || s[from] == '.' then from else NextPoint(s, from + 1)
  }

  /** The text's parts around its first point; a second point ends the fraction. */
  function Parts(s: string): (string, string) {
    var p := NextPoint(s, 0);
    if p == |s| then (s, "") else (s[..p], s[p + 1..NextPoint(s, p + 1)])
  }

  /** Exactly `n` digits of fraction. */
  function FracText(frac: string, n: nat): (r: string)
    ensures |r| == n
  {
    Slice(PadEnd(frac, n), n)
  }

  /** Conversion to an integer of `n` decimals; None when the joined text is not a string of digits. */
  function ToUnits(amount: string, n: nat): Option<nat> {
    var parts := Parts(amount);
    var text := (if parts.0 == "" then "0" else parts.0) + FracText(parts.1, n);
    if AllDigits(text) then Some(IntOf(text)) else None
  }

  function ToWei(amount: string): Option<nat> {
    ToUnits(amount, 18)
  }

  // ----- Digit strings -----

  lemma {:induction false} PrintIsInverse(n: nat)
    ensures IntOf(Print(n)) == n
    decreases n
  {
    if n >= 10 { PrintIsInverse(n / 10); }
  }

  lemma {:induction false} PrintLength(n: nat, d: nat)
    requires d >= 1 && Chop(n, d) == 0
    ensures |Print(n)| <= d
    decreases n
  {
    if n >= 10 { PrintLength(n / 10, d - 1); }
  }

  lemma {:induction false} IntOfConcat(s: string, t: string)
    requires AllDigits(s) && AllDigits(t)
    ensures AllDigits(s + t) && IntOf(s + t) == Scale(IntOf(s), |t|) + IntOf(t)
    decreases |t|
  {
    if t == "" {
      assert s + t == s;
    } else {
      IntOfConcat(s, t[..|t| - 1]);
      assert (s + t)[..|s + t| - 1] == s + t[..|t| - 1];
    }
  }

  lemma {:induction false} IntOfZeros(n: nat)
    ensures AllDigits(Repeat('0', n)) && IntOf(Repeat('0', n)) == 0
    decreases n
  {
    if n > 0 {
      assert Repeat('0', n)[..n - 1] == Repeat('0', n - 1);
      IntOfZeros(n - 1);
    }
  }

  /** The first `m` digits of a string are its value with the rest chopped off. */
  lemma {:induction false} IntOfPrefix(s: string, m: nat)
    requires AllDigits(s) && m <= |s|
    ensures IntOf(s[..m]) == Chop(IntOf(s), |s| - m)
    decreases |s|
  {
    if m < |s| {
      IntOfPrefix(s[..|s| - 1], m);
      assert s[..|s| - 1][..m] == s[..m];
    } else {
      assert s[..m] == s;
    }
  }

  // ----- What formatting prints -----

  function Shown(decimals: nat, shown: nat): (m: nat)
    ensures m <= decimals && m <= shown
  {
    if shown < decimals then shown else decimals
  }

  function FracDigits(x: nat, decimals: nat, shown: nat): string {
    Slice(PadStart(Print(Rest(x, decimals)), decimals), shown)
  }

  lemma FormatParts(x: nat, decimals: nat, shown: nat)
    ensures var text := StripZeros(Print(Chop(x, decimals)) + "." + FracDigits(x, decimals, shown));
      Format(x, decimals, shown) == if text == "" then "0" else text
  {
    ChopIsDivision(x, decimals);
  }

  lemma PaddedValue(n: nat, d: nat)
    requires d >= 1 && Chop(n, d) == 0
    ensures |PadStart(Print(n), d)| == d && AllDigits(PadStart(Print(n), d)) && IntOf(PadStart(Print(n), d)) == n
  {
    hide Print, Repeat, Scale, Chop;
    PrintLength(n, d);
    PrintIsInverse(n);
    IntOfZeros(d - |Print(n)|);
    IntOfConcat(Repeat('0', d - |Print(n)|), Print(n));
    ScaleZero(|Print(n)|);
    assert PadStart(Print(n), d) == Repeat('0', d - |Print(n)|) + Print(n);
  }

  lemma {:induction false} ScaleZero(k: nat)
    ensures Scale(0, k) == 0
  {
    if k > 0 { ScaleZero(k - 1); }
  }

  lemma FracDigitsValue(x: nat, decimals: nat, shown: nat)
    requires decimals >= 1
    ensures var f := FracDigits(x, decimals, shown);
      var m := Shown(decimals, shown);
      |f| == m && AllDigits(f) && IntOf(f) == Rest(Chop(x, decimals - m), m)
  {
    var m := Shown(decimals, shown);
    ChopOfRest(x, decimals, 0);
    PaddedValue(Rest(x, decimals), decimals);
    IntOfPrefix(PadStart(Print(Rest(x, decimals)), decimals), m);
    ChopOfRest(x, decimals, m);
    assert FracDigits(x, decimals, shown) == PadStart(Print(Rest(x, decimals)), decimals)[..m];
  }

  lemma {:induction false} TrailingZerosOfFraction(head: string, frac: string)
    requires head != "" && head[|head| - 1] == '.'
    ensures TrailingZeros(head + frac) == TrailingZeros(frac)
    decreases |frac|
  {
    if frac == "" {
      assert head + frac == head;
    } else {
      assert (head + frac)[..|head + frac| - 1] == head + frac[..|frac| - 1];
      TrailingZerosOfFraction(head, frac[..|frac| - 1]);
    }
  }

  lemma PointAt(whole: string, frac: string, j: nat)
    requires j <= |frac|
    ensures var full := whole + "." + frac;
      full[..|whole|] == whole && full[|whole|] == '.' && full[..|whole| + 1 + j] == whole + "." + frac[..j]
      && (j < |frac| ==> full[|whole| + 1 + j] == frac[j])
  {
  }

  lemma CutFractionAt(whole: string, frac: string, k: nat)
    requires whole != "" && k <= |frac| && forall i :: 0 <= i < |frac| ==> frac[i] != '.'
    ensures Cut(whole + "." + frac, k) == if k == |frac| > 0 then whole else whole + "." + frac[..|frac| - k]
  {
    PointAt(whole, frac, |frac| - k);
    if 0 < k < |frac| { PointAt(whole, frac, |frac| - k - 1); }
  }

  /** Stripping removes only zeros of the fraction, and the point when nothing is left of it. */
  lemma StrippedText(whole: string, frac: string)
    requires whole != "" && forall i :: 0 <= i < |frac| ==> frac[i] != '.'
    ensures var k := TrailingZeros(frac);
      StripZeros(whole + "." + frac) == if k == |frac| > 0 then whole else whole + "." + frac[..|frac| - k]
  {
    hide TrailingZeros, Cut;
    TrailingZerosOfFraction(whole + ".", frac);
    CutFractionAt(whole, frac, TrailingZeros(frac));
  }

  lemma {:induction false} NextPointSkips(s: string, from: nat, p: nat)
    requires from <= p <= |s| && (forall i :: from <= i < p ==> s[i] != '.') && (p < |s| ==> s[p] == '.')
    ensures NextPoint(s, from) == p
    decreases p - from
  {
    if from < p { NextPointSkips(s, from + 1, p); }
  }

  lemma PartsOf(whole: string, frac: string)
    requires AllDigits(whole) && AllDigits(frac)
    ensures Parts(whole) == (whole, "") && Parts(whole + "." + frac) == (whole, frac)
  {
    var text := whole + "." + frac;
    NextPointSkips(whole, 0, |whole|);
    assert text[|whole|] == '.';
    forall i | 0 <= i < |whole| ensures text[i] != '.' { assert text[i] == whole[i]; }
    NextPointSkips(text, 0, |whole|);
    forall i | |whole| + 1 <= i < |text| ensures text[i] != '.' { assert text[i] == frac[i - |whole| - 1]; }
    NextPointSkips(text, |whole| + 1, |text|);
    assert text[..|whole|] == whole;
    assert text[|whole| + 1..|text|] == frac;
  }

  lemma StrippedParts(whole: string, frac: string, n: nat)
    requires AllDigits(whole) && whole != "" && AllDigits(frac)
    ensures var text := StripZeros(whole + "." + frac);
      text != "" && Parts(text).0 == whole && FracText(Parts(text).1, n) == FracText(frac, n)
  {
    hide TrailingZeros, StripZeros, Parts, FracText;
    var k := TrailingZeros(frac);
    StrippedText(whole, frac);
    TrailingZerosRun(frac);
    PartsOf(whole, frac[..|frac| - k]);
    PaddingHidesZeros(frac, k, n);
  }

  lemma PaddingHidesZeros(frac: string, k: nat, n: nat)
    requires k <= |frac| && forall i :: |frac| - k <= i < |frac| ==> frac[i] == '0'
    ensures FracText(frac[..|frac| - k], n) == FracText(frac, n)
  {
    var a, b := FracText(frac[..|frac| - k], n), FracText(frac, n);
    assert forall i :: 0 <= i < n ==> a[i] == b[i];
  }

  /** A value with `m` decimals, at `n`. */
  function At(y: nat, m: nat, n: nat): nat {
    if m <= n then Scale(y, n - m) else Chop(y, m - n)
  }

  lemma FracTextValue(frac: string, n: nat)
    requires AllDigits(frac)
    ensures AllDigits(FracText(frac, n)) && IntOf(FracText(frac, n)) == At(IntOf(frac), |frac|, n)
  {
    hide IntOf, FracText, Scale, Chop;
    if |frac| <= n {
      PaddedFraction(frac, n);
    } else {
      IntOfPrefix(frac, n);
      CutFraction(frac, n);
    }
  }

  lemma CutFraction(frac: string, n: nat)
    requires n < |frac|
    ensures FracText(frac, n) == frac[..n]
  {
  }

  lemma PaddedFraction(frac: string, n: nat)
    requires AllDigits(frac) && |frac| <= n
    ensures AllDigits(FracText(frac, n)) && IntOf(FracText(frac, n)) == Scale(IntOf(frac), n - |frac|)
  {
    var zeros := Repeat('0', n - |frac|);
    IntOfZeros(n - |frac|);
    IntOfConcat(frac, zeros);
    assert FracText(frac, n) == frac + zeros by {
      if |frac| == n { assert frac + zeros == frac; }
    }
  }

  /** Text of a known shape converts part by part. */
  lemma UnitsOf(text: string, whole: string, frac: string, n: nat)
    requires AllDigits(whole) && whole != "" && AllDigits(frac)
    requires Parts(text).0 == whole && FracText(Parts(text).1, n) == FracText(frac, n)
    ensures ToUnits(text, n) == Some(Scale(IntOf(whole), n) + At(IntOf(frac), |frac|, n))
  {
    FracTextValue(frac, n);
    IntOfConcat(whole, FracText(frac, n));
  }

  lemma AtOfSum(y: nat, m: nat, n: nat)
    ensures At(y, m, n) == Scale(Chop(y, m), n) + At(Rest(y, m), m, n)
  {
    ChopRest(y, m);
    if m <= n {
      ScaleSum(Chop(y, m), m, Rest(y, m), n - m);
    } else {
      ChopSum(Chop(y, m), m - n, n, Rest(y, m));
    }
  }

  // ----- Main results -----

  lemma ConvertFormatted(x: nat, decimals: nat, shown: nat, n: nat)
    requires decimals >= 1
    ensures var m := Shown(decimals, shown);
      ToUnits(Format(x, decimals, shown), n) == Some(Scale(Chop(x, decimals), n) + At(Rest(Chop(x, decimals - m), m), m, n))
  {
    hide *;
    FormatParts(x, decimals, shown);
    FracDigitsValue(x, decimals, shown);
    PartsConvert(Print(Chop(x, decimals)), FracDigits(x, decimals, shown), n);
    PrintIsInverse(Chop(x, decimals));
  }

  /**
   Printing and converting back: the shown digits of the balance, and nothing else, survive.  The divisor
   10 ** decimals is exact up to 22 decimals.
   */
  lemma PrintParse(x: nat, decimals: nat, shown: nat, n: nat)
    requires 1 <= decimals <= 22
    ensures var m := Shown(decimals, shown);
      ToUnits(Format(x, decimals, shown), n) == Some(At(Chop(x, decimals - m), m, n))
  {
    hide *;
    var m := Shown(decimals, shown);
    ConvertFormatted(x, decimals, shown, n);
    ChopChop(x, decimals - m, m);
    AtOfSum(Chop(x, decimals - m), m, n);
  }

  lemma PartsConvert(whole: string, frac: string, n: nat)
    requires AllDigits(whole) && whole != "" && AllDigits(frac)
    ensures StripZeros(whole + "." + frac) != ""
    ensures ToUnits(StripZeros(whole + "." + frac), n) == Some(Scale(IntOf(whole), n) + At(IntOf(frac), |frac|, n))
  {
    StrippedParts(whole, frac, n);
    UnitsOf(StripZeros(whole + "." + frac), whole, frac, n);
  }

  /** A token balance of up to 18 decimals is recovered exactly, scaled to 18 digits. */
  lemma TokenBalanceRoundTrip(x: nat, decimals: nat)
    requires 1 <= decimals <= 18
    ensures ToWei(Format(x, decimals, decimals)) == Some(x * Pow10(18 - decimals))
  {
    PrintParse(x, decimals, decimals, 18);
    ScaleIsProduct(x, 18 - decimals);
  }

  /** A native balance is recovered rounded down to six places. */
  lemma NativeBalanceRoundsDown(x: nat)
    ensures ToWei(Format(x, 18, 6)) == Some(x / Pow10(12) * Pow10(12))
  {
    PrintParse(x, 18, 6, 18);
    ChopIsDivision(x, 12);
    ScaleIsProduct(Chop(x, 12), 12);
  }

  lemma {:induction false} ScaleInjective(x: nat, y: nat, k: nat)
    requires Scale(x, k) == Scale(y, k)
    ensures x == y
    decreases k
  {
    if k > 0 { ScaleInjective(x, y, k - 1); }
  }

  /** Two different token balances never print alike. */
  lemma TokenTextInjective(x: nat, y: nat, decimals: nat)
    requires 1 <= decimals <= 18 && Format(x, decimals, decimals) == Format(y, decimals, decimals)
    ensures x == y
  {
    PrintParse(x, decimals, decimals, 18);
    PrintParse(y, decimals, decimals, 18);
    ScaleInjective(x, y, 18 - decimals);
  }
}
