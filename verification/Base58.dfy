/** Base58 (sections 2 to 4 of draft-msporny-base58), as used for Solana addresses. */
module Base58 {
  import opened Wrappers
  import opened Radix

  const ALPHABET := "123456789" + "ABCDEFGH" + "JKLMN" + "PQRSTUVWXYZ" + "abcdefghijk" + "mnopqrstuvwxyz"

  /** Position of `c` in the alphabet, by ranges; 58 when it is not there. */
  function DigitOf(c: char): (d: nat)
    ensures d <= 58
  {
    if '1' <= c <= '9' then c as nat - '1' as nat
    else if 'A' <= c <= 'H' then c as nat - 'A' as nat + 9
    else if 'J' <= c <= 'N' then c as nat - 'J' as nat + 17
    else if 'P' <= c <= 'Z' then c as nat - 'P' as nat + 22
    else if 'a' <= c <= 'k' then c as nat - 'a' as nat + 33
    else if 'm' <= c <= 'z' then c as nat - 'm' as nat + 44
    else 58
  }

  function CharOf(d: nat): (c: char)
    requires d < 58
    ensures DigitOf(c) == d
  {
    if d < 9 then ('1' as nat + d) as char
    else if d < 17 then ('A' as nat + d - 9) as char
    else if d < 22 then ('J' as nat + d - 17) as char
    else if d < 33 then ('P' as nat + d - 22) as char
    else if d < 44 then ('a' as nat + d - 33) as char
    else ('m' as nat + d - 44) as char
  }

  /** The ranges are the alphabet's. */
  lemma CharOfIsAlphabet(d: nat)
    requires d < 58
    ensures |ALPHABET| == 58 && ALPHABET[d] == CharOf(d)
  {
    if d < 9 { assert ALPHABET[d] == "123456789"[d]; }
    else if d < 17 { assert ALPHABET[d] == "ABCDEFGH"[d - 9]; }
    else if d < 22 { assert ALPHABET[d] == "JKLMN"[d - 17]; }
    else if d < 33 { assert ALPHABET[d] == "PQRSTUVWXYZ"[d - 22]; }
    else if d < 44 { assert ALPHABET[d] == "abcdefghijk"[d - 33]; }
    else { assert ALPHABET[d] == "mnopqrstuvwxyz"[d - 44]; }
  }

  /** The alphabet search: first index of `c`, or -1. */
  method IndexOf(c: char) returns (k: int)
    ensures k == (if DigitOf(c) < 58 then DigitOf(c) else -1)
  {
    CharOfIsAlphabet(0);
    k := 0;
    while k < |ALPHABET|
      invariant 0 <= k <= 58 == |ALPHABET|
      invariant DigitOf(c) >= k
    {
      CharOfIsAlphabet(k);
      if ALPHABET[k] == c { return; }
      if DigitOf(c) == k { DigitOfInjective(c, CharOf(k)); }
      k := k + 1;
    }
    k := -1;
  }

  lemma DigitOfInjective(c: char, d: char)
    requires DigitOf(c) == DigitOf(d) < 58
    ensures c == d
  {
  }

  predicate ValidChar(c: char) {
    DigitOf(c) < 58
  }

  predicate Valid(s: string) {
    forall i :: 0 <= i < |s| ==> ValidChar(s[i])
  }

  predicate Bytes(b: seq<nat>) {
    DigitsIn(b, 256)
  }

  /** The string's digits, least significant first. */
  function Digits(s: string): (ds: seq<nat>)
    ensures |ds| == |s| && (forall i :: 0 <= i < |s| ==> ds[i] == DigitOf(s[|s| - 1 - i])) && (Valid(s) ==> DigitsIn(ds, 58))
  {
    seq(|s|, i requires 0 <= i < |s| => DigitOf(s[|s| - 1 - i]))
  }

  /** Big-endian value of a byte string. */
  function BytesValue(b: seq<nat>): nat {
    Val(Reverse(b), 256)
  }

  /** Base-58 value of a string. */
  function StringValue(s: string): nat {
    Val(Digits(s), 58)
  }

  function LeadingOnes(s: string): nat {
    if s != "" && s[0] == '1' then 1 + LeadingOnes(s[1..]) else 0
  }

  function LeadingZeros(b: seq<nat>): nat {
    if b != [] && b[0] == 0 then 1 + LeadingZeros(b[1..]) else 0
  }

  function Decoded(s: string): seq<nat> {
    Reverse(Convert(Digits(s), 58, 256))
  }

  /** The standard encoder. */
  function Encode(b: seq<nat>): (s: string) {
    var ds := Convert(Reverse(b), 256, 58);
    seq(|ds|, i requires 0 <= i < |ds| => CharOf(ds[|ds| - 1 - i]))
  }

  // ----- The decoder -----

  /** `58 * ds + carry`, as the inner loop leaves it: low digits replaced, the carry spilled on top. */
  function MulAdd(ds: seq<nat>, carry: nat): seq<nat> {
    if ds == [] then ToDigits(carry, 256)
    else [(carry + ds[0] * 58) % 256] + MulAdd(ds[1..], (carry + ds[0] * 58) / 256)
  }

  lemma {:induction false} MulAddCorrect(ds: seq<nat>, carry: nat)
    requires Canonical(ds, 256)
    ensures Canonical(MulAdd(ds, carry), 256) && Val(MulAdd(ds, carry), 256) == 58 * Val(ds, 256) + carry
    decreases |ds|
  {
    if ds != [] {
      MulAddCorrect(ds[1..], (carry + ds[0] * 58) / 256);
      if |ds| == 1 {
        assert carry + ds[0] * 58 > 0;
      } else {
        PositiveVal(ds[1..], 256);
      }
    }
  }

  /** Multiply the buffer by 58 and add a digit, in place; every intermediate fits a signed 32-bit integer. */
  method AddDigit(buffer: seq<nat>, digit: nat) returns (result: seq<nat>)
    requires DigitsIn(buffer, 256) && digit < 58
    ensures result == MulAdd(buffer, digit)
  {
    result := buffer;
    var carry := digit;
    var j := 0;
    while j < |result|
      invariant 0 <= j <= |result| == |buffer| && carry < 58
      invariant forall i :: j <= i < |buffer| ==> result[i] == buffer[i]
      invariant result[..j] + MulAdd(buffer[j..], carry) == MulAdd(buffer, digit)
    {
      MulAddUnrolled(buffer, j, carry);
      ghost var low := result[..j];
      var sum := carry + result[j] * 58;
      assert sum < 0x8000_0000;
      result := result[j := sum % 256];
      carry := sum / 256;
      assert result[..j + 1] == low + [sum % 256];
      j := j + 1;
    }
    assert result[..j] == result && buffer[j..] == [];
    result := Spill(result, carry);
  }

  lemma MulAddUnrolled(ds: seq<nat>, j: nat, carry: nat)
    requires j < |ds|
    ensures MulAdd(ds[j..], carry) == [(carry + ds[j] * 58) % 256] + MulAdd(ds[j + 1..], (carry + ds[j] * 58) / 256)
  {
    assert ds[j..][1..] == ds[j + 1..];
  }

  lemma SpillOne(low: seq<nat>, rest: nat)
    requires rest > 0
    ensures low + [rest % 256] + ToDigits(rest / 256, 256) == low + ToDigits(rest, 256)
  {
    assert low + [rest % 256] + ToDigits(rest / 256, 256) == low + ([rest % 256] + ToDigits(rest / 256, 256));
  }

  method Spill(low: seq<nat>, carry: nat) returns (result: seq<nat>)
    ensures result == low + ToDigits(carry, 256)
  {
    hide ToDigits;
    result := low;
    var rest := carry;
    while rest > 0
      invariant result + ToDigits(rest, 256) == low + ToDigits(carry, 256)
    {
      SpillOne(result, rest);
      result := result + [rest % 256];
      rest := rest / 256;
    }
    assert ToDigits(0, 256) == [] by { NoDigits(); }
  }

  lemma NoDigits()
    ensures ToDigits(0, 256) == []
  {
  }

  lemma PrefixDigits(s: string, i: nat)
    requires i < |s|
    ensures Digits(s[..i + 1]) == [DigitOf(s[i])] + Digits(s[..i])
  {
  }

  /** The in-place decoder: it rejects exactly the strings with a foreign character. */
  method Base58Decode(s: string) returns (r: Result<seq<nat>, char>)
    ensures r.Ok? <==> Valid(s)
    ensures r.Ok? ==> r.value == Decoded(s)
    ensures r.Err? ==> r.error in s && !ValidChar(r.error)
  {
    var result: seq<nat> := [];
    for i := 0 to |s|
      invariant forall k :: 0 <= k < i ==> ValidChar(s[k])
      invariant Canonical(result, 256) && Val(result, 256) == StringValue(s[..i])
    {
      var digit := IndexOf(s[i]);
      if digit < 0 { return Err(s[i]); }
      PrefixDigits(s, i);
      MulAddCorrect(result, digit);
      result := AddDigit(result, digit);
    }
    assert s[..|s|] == s;
    CanonicalUnique(result, 256);
    LeadingOnesAreTopZeros(s);
    result := PushLeadingZeros(result, s);
    return Ok(Reverse(result));
  }

  /** One zero byte on top for each leading '1'. */
  method PushLeadingZeros(body: seq<nat>, s: string) returns (result: seq<nat>)
    ensures result == body + Zeros(LeadingOnes(s))
  {
    result := body;
    var k := 0;
    while k < |s| && s[k] == '1'
      invariant 0 <= k <= |s| && result == body + Zeros(k)
      invariant k + LeadingOnes(s[k..]) == LeadingOnes(s)
    {
      assert s[k..][1..] == s[k + 1..];
      result := result + [0];
      k := k + 1;
    }
  }

  lemma {:induction false} LeadingOnesAreTopZeros(s: string)
    ensures LeadingOnes(s) == TopZeros(Digits(s))
    decreases |s|
  {
    if s != "" {
      assert Digits(s)[..|s| - 1] == Digits(s[1..]);
      LeadingOnesAreTopZeros(s[1..]);
    }
  }

  lemma {:induction false} LeadingZerosAreTopZeros(b: seq<nat>)
    ensures LeadingZeros(b) == TopZeros(Reverse(b))
    decreases |b|
  {
    if b != [] {
      assert Reverse(b)[..|b| - 1] == Reverse(b[1..]);
      LeadingZerosAreTopZeros(b[1..]);
    }
  }

  // ----- Main results -----

  /** The bytes have the string's value, and one leading zero byte per leading '1', no more. */
  lemma DecodedValue(s: string)
    requires Valid(s)
    ensures Bytes(Decoded(s)) && BytesValue(Decoded(s)) == StringValue(s) && LeadingZeros(Decoded(s)) == LeadingOnes(s)
  {
    var ds := Convert(Digits(s), 58, 256);
    ReverseTwice(ds);
    LeadingOnesAreTopZeros(s);
    LeadingZerosAreTopZeros(Decoded(s));
    TopZerosPadded(ToDigits(StringValue(s), 256), TopZeros(Digits(s)));
  }

  lemma DigitsOfText(s: string, ds: seq<nat>)
    requires DigitsIn(ds, 58) && |s| == |ds| && forall i :: 0 <= i < |s| ==> DigitOf(s[i]) == ds[|ds| - 1 - i]
    ensures Valid(s) && Digits(s) == ds
  {
    hide DigitOf;
    forall i | 0 <= i < |s| ensures ValidChar(s[i]) && Digits(s)[i] == ds[i] {
      assert DigitOf(s[|s| - 1 - i]) == ds[i];
    }
  }

  lemma EncodeDigits(b: seq<nat>)
    requires Bytes(b)
    ensures Valid(Encode(b)) && Digits(Encode(b)) == Convert(Reverse(b), 256, 58)
  {
    hide Convert, CharOf, DigitOf, Digits, Val, ToDigits;
    var ds, s := Convert(Reverse(b), 256, 58), Encode(b);
    assert DigitsIn(ds, 58);
    forall i | 0 <= i < |s| ensures DigitOf(s[i]) == ds[|ds| - 1 - i] {
      assert s[i] == CharOf(ds[|ds| - 1 - i]);
    }
    DigitsOfText(s, ds);
  }

  /** Decoding undoes encoding, for every byte string. */
  lemma DecodeEncode(b: seq<nat>)
    requires Bytes(b)
    ensures Valid(Encode(b)) && Decoded(Encode(b)) == b
  {
    EncodeDigits(b);
    ConvertRoundTrip(Reverse(b), 256, 58);
    ReverseTwice(b);
  }

  /** Encoding undoes decoding, for every valid string. */
  lemma EncodeDecode(s: string)
    requires Valid(s)
    ensures Bytes(Decoded(s)) && Encode(Decoded(s)) == s
  {
    var ds := Convert(Digits(s), 58, 256);
    ReverseTwice(ds);
    ConvertRoundTrip(Digits(s), 58, 256);
    assert Convert(Reverse(Decoded(s)), 256, 58) == Digits(s);
    EncodeDigits(Decoded(s));
    DigitsInjective(Encode(Decoded(s)), s);
  }

  lemma DigitsInjective(s: string, t: string)
    requires Valid(s) && Digits(s) == Digits(t)
    ensures s == t
  {
    assert |s| == |Digits(s)| == |t|;
    forall i | 0 <= i < |s| ensures s[i] == t[i] {
      assert DigitOf(s[i]) == Digits(s)[|s| - 1 - i] == Digits(t)[|s| - 1 - i] == DigitOf(t[i]);
      DigitOfInjective(s[i], t[i]);
    }
  }

  /** No two addresses decode to the same key. */
  lemma DecodeInjective(s: string, t: string)
    requires Valid(s) && Valid(t) && Decoded(s) == Decoded(t)
    ensures s == t
  {
    EncodeDecode(s);
    EncodeDecode(t);
  }
}
