/** The few string operations the program relies on; case is that of ASCII letters. */
module Text {

  function LowerChar(c: char): char {
    if 'A' <= c <= 'Z' then (c as int + 32) as char else c
  }

  function Lower(s: string): (r: string)
    ensures |r| == |s|
  {
    seq(|s|, i requires 0 <= i < |s| => LowerChar(s[i]))
  }

  const CAPITALS := "ABCDEFGHIJKLMNOPQRSTUVWXYZ"
  const SMALL := "abcdefghijklmnopqrstuvwxyz"

  /** The same character, but for the case of an ASCII letter. */
  predicate SameLetter(c: char, d: char) {
    c == d || exists i :: 0 <= i < 26 && ((c == CAPITALS[i] && d == SMALL[i]) || (c == SMALL[i] && d == CAPITALS[i]))
  }

  lemma LetterAt(i: nat)
    requires i < 26
    ensures |CAPITALS| == |SMALL| == 26
    ensures CAPITALS[i] as int == 'A' as int + i && SMALL[i] as int == 'a' as int + i
  {
  }

  lemma LowerCharsAgree(c: char, d: char)
    ensures LowerChar(c) == LowerChar(d) <==> SameLetter(c, d)
  {
    forall i | 0 <= i < 26 ensures CAPITALS[i] as int == 'A' as int + i && SMALL[i] as int == 'a' as int + i { LetterAt(i); }
    if LowerChar(c) == LowerChar(d) && c != d {
      var i := LowerChar(c) as int - 'a' as int;
      assert 0 <= i < 26 && ((c == CAPITALS[i] && d == SMALL[i]) || (c == SMALL[i] && d == CAPITALS[i]));
    }
  }

  predicate Small(s: string) {
    forall i :: 0 <= i < |s| ==> s[i] !in CAPITALS
  }

  /** Lower-casing leaves no capital and changes nothing but the case of letters. */
  lemma LowerIsSmall(s: string)
    ensures Small(Lower(s)) && forall i :: 0 <= i < |s| ==> SameLetter(Lower(s)[i], s[i])
  {
    forall i | 0 <= i < |s| ensures Lower(s)[i] !in CAPITALS && SameLetter(Lower(s)[i], s[i]) {
      forall j | 0 <= j < 26 ensures CAPITALS[j] != Lower(s)[i] { LetterAt(j); }
      LowerCharsAgree(Lower(s)[i], s[i]);
    }
  }

  lemma LowersAgree(s: string, t: string)
    ensures Lower(s) == Lower(t) <==> |s| == |t| && forall i :: 0 <= i < |s| ==> SameLetter(s[i], t[i])
  {
    if |s| == |t| {
      forall i | 0 <= i < |s| ensures Lower(s)[i] == Lower(t)[i] <==> SameLetter(s[i], t[i]) {
        LowerCharsAgree(s[i], t[i]);
      }
    }
  }

  // ----- Trimming -----

  /** White space and line terminators (sections 12.2 and 12.3 of ECMA-262). */
  predicate Blank(c: char) {
    var n := c as int;
    9 <= n <= 13 || n == 32 || n == 0xA0 || n == 0x1680 || 0x2000 <= n <= 0x200A
    || n == 0x2028 || n == 0x2029 || n == 0x202F || n == 0x205F || n == 0x3000 || n == 0xFEFF
  }

  const WHITE_SPACE := "\U{0009}\U{000A}\U{000B}\U{000C}\U{000D}\U{0020}\U{00A0}\U{1680}" +
    "\U{2000}\U{2001}\U{2002}\U{2003}\U{2004}\U{2005}\U{2006}\U{2007}\U{2008}\U{2009}\U{200A}" +
    "\U{2028}\U{2029}\U{202F}\U{205F}\U{3000}\U{FEFF}"

  lemma BlankIff(c: char)
    ensures Blank(c) <==> c in WHITE_SPACE
  {
    var a := "\U{0009}\U{000A}\U{000B}\U{000C}\U{000D}\U{0020}\U{00A0}\U{1680}";
    var b := "\U{2000}\U{2001}\U{2002}\U{2003}\U{2004}\U{2005}\U{2006}\U{2007}\U{2008}\U{2009}\U{200A}";
    assert WHITE_SPACE == a + b + "\U{2028}\U{2029}\U{202F}\U{205F}\U{3000}\U{FEFF}";
  }

  function TrimStart(s: string): string {
    if s != "" && Blank(s[0]) then TrimStart(s[1..]) else s
  }

  function TrimEnd(s: string): string {
    if s != "" && Blank(s[|s| - 1]) then TrimEnd(s[..|s| - 1]) else s
  }

  function Trim(s: string): string {
    TrimEnd(TrimStart(s))
  }

  predicate AllBlank(s: string) {
    forall i :: 0 <= i < |s| ==> Blank(s[i])
  }

  predicate NoBlankEnds(s: string) {
    s == "" || (!Blank(s[0]) && !Blank(s[|s| - 1]))
  }

  lemma {:induction false} TrimStartCuts(s: string) returns (pre: string)
    ensures s == pre + TrimStart(s) && AllBlank(pre) && (TrimStart(s) != "" ==> !Blank(TrimStart(s)[0]))
    decreases |s|
  {
    pre := "";
    if s != "" && Blank(s[0]) {
      var rest := TrimStartCuts(s[1..]);
      pre := [s[0]] + rest;
    }
  }

  lemma {:induction false} TrimEndCuts(s: string) returns (post: string)
    ensures s == TrimEnd(s) + post && AllBlank(post) && (TrimEnd(s) != "" ==> !Blank(TrimEnd(s)[|TrimEnd(s)| - 1]))
    decreases |s|
  {
    post := "";
    if s != "" && Blank(s[|s| - 1]) {
      var rest := TrimEndCuts(s[..|s| - 1]);
      post := rest + [s[|s| - 1]];
    }
  }

  /** Trimming takes blanks off both ends, and all of them. */
  lemma TrimCuts(s: string) returns (pre: string, post: string)
    ensures s == pre + Trim(s) + post && AllBlank(pre) && AllBlank(post) && NoBlankEnds(Trim(s))
  {
    pre := TrimStartCuts(s);
    post := TrimEndCuts(TrimStart(s));
    if Trim(s) != "" { assert TrimStart(s)[0] == Trim(s)[0]; }
  }

  lemma {:induction false} TrimStartSkips(pre: string, rest: string)
    requires AllBlank(pre)
    ensures TrimStart(pre + rest) == TrimStart(rest)
    decreases |pre|
  {
    if pre == "" {
      assert pre + rest == rest;
    } else {
      assert (pre + rest)[1..] == pre[1..] + rest;
      TrimStartSkips(pre[1..], rest);
    }
  }

  lemma {:induction false} TrimEndSkips(rest: string, post: string)
    requires AllBlank(post)
    ensures TrimEnd(rest + post) == TrimEnd(rest)
    decreases |post|
  {
    if post == "" {
      assert rest + post == rest;
    } else {
      var n := |post| - 1;
      assert (rest + post)[..|rest| + n] == rest + post[..n];
      TrimEndSkips(rest, post[..n]);
    }
  }

  /** And only those: the middle is recovered, so Trim is the one function that does this. */
  lemma TrimOf(pre: string, middle: string, post: string)
    requires AllBlank(pre) && AllBlank(post) && NoBlankEnds(middle)
    ensures Trim(pre + middle + post) == middle
  {
    assert pre + middle + post == pre + (middle + post);
    TrimStartSkips(pre, middle + post);
    if middle == "" {
      assert middle + post == post + "";
      TrimStartSkips(post, "");
    } else {
      TrimEndSkips(middle, post);
    }
  }

  // ----- Addresses -----

  /** Addresses are compared without their 0x prefix and without case. */
  function NormalAddress(a: string): string {
    Lower(if |a| >= 2 && a[0] == '0' && (a[1] == 'x' || a[1] == 'X') then a[2..] else a)
  }

  /** Where the digits of an address begin. */
  function FirstDigit(a: string): (k: nat)
    ensures k <= |a|
  {
    if "0x" <= a || "0X" <= a then 2 else 0
  }

  /** Two addresses have the same digits, each after its own prefix, if it has one. */
  predicate SameAddress(a: string, b: string) {
    var j, k := FirstDigit(a), FirstDigit(b);
    |a| - j == |b| - k && forall i :: j <= i < |a| ==> SameLetter(a[i], b[i - j + k])
  }

  lemma SuffixesAgree(a: string, j: nat, b: string, k: nat)
    requires j <= |a| && k <= |b|
    ensures Lower(a[j..]) == Lower(b[k..]) <==> |a| - j == |b| - k && forall i :: j <= i < |a| ==> SameLetter(a[i], b[i - j + k])
  {
    hide SameLetter;
    var s, t := a[j..], b[k..];
    LowersAgree(s, t);
    if |s| == |t| {
      assert forall i :: 0 <= i < |s| ==> s[i] == a[j + i] && t[i] == b[k + i];
      if forall i :: 0 <= i < |s| ==> SameLetter(s[i], t[i]) {
        forall i | j <= i < |a| ensures SameLetter(a[i], b[i - j + k]) {
          assert SameLetter(s[i - j], t[i - j]);
        }
      }
    }
  }

  lemma AddressesAgree(a: string, b: string)
    ensures NormalAddress(a) == NormalAddress(b) <==> SameAddress(a, b)
  {
    hide Lower, SameLetter;
    var j, k := FirstDigit(a), FirstDigit(b);
    assert NormalAddress(a) == Lower(a[j..]) by { DigitsOf(a); }
    assert NormalAddress(b) == Lower(b[k..]) by { DigitsOf(b); }
    SuffixesAgree(a, j, b, k);
  }

  lemma DigitsOf(a: string)
    ensures NormalAddress(a) == Lower(a[FirstDigit(a)..])
  {
    assert a[0..] == a;
  }

  function Repeat(c: char, n: nat): (s: string)
    ensures |s| == n && forall i :: 0 <= i < n ==> s[i] == c
  {
    seq(n, _ => c)
  }

  /** Free of the separator that joins the parts of a key. */
  predicate Plain(s: string) {
    forall i :: 0 <= i < |s| ==> s[i] != '_'
  }
}
