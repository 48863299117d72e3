/**
 Client session tokens: unpadded base64url (section 5 of RFC 4648) of a JSON payload, a point, and the
 base64url of its HMAC.

 HMAC, JSON and UTF-8 are parameters, as is what the runtime's forgiving base64 decoder makes of
 malformed text.
 */
module SessionToken {
  import opened Wrappers
  import opened Text
  import R = Radix

  const SESSION_TTL_SEC: int := 24 * 3600

  // ----- Bytes and sextets -----

  function Pack(x: nat, y: nat, z: nat): (d: seq<nat>)
    requires x < 256 && y < 256 && z < 256
    ensures |d| == 4 && R.DigitsIn(d, 64)
  {
    [x / 4, x % 4 * 16 + y / 16, y % 16 * 4 + z / 64, z % 64]
  }

  function Unpack(d: seq<nat>): (b: seq<nat>)
    requires |d| == 4
    ensures |b| == 3
  {
    [d[0] * 4 + d[1] / 16, d[1] % 16 * 16 + d[2] / 4, d[2] % 4 * 64 + d[3]]
  }

  lemma UnpackInverse(x: nat, y: nat, z: nat)
    requires x < 256 && y < 256 && z < 256
    ensures Unpack(Pack(x, y, z)) == [x, y, z]
  {
    assert (x % 4 * 16 + y / 16) / 16 == x % 4 && (x % 4 * 16 + y / 16) % 16 == y / 16;
    assert (y % 16 * 4 + z / 64) / 4 == y % 16 && (y % 16 * 4 + z / 64) % 4 == z / 64;
  }

  /** Three bytes become four sextets; one or two left over become two or three. */
  function Sextets(b: seq<nat>): (r: seq<nat>)
    requires R.DigitsIn(b, 256)
    ensures R.DigitsIn(r, 64) && |r| == |b| / 3 * 4 + (if |b| % 3 == 0 then 0 else |b| % 3 + 1)
  {
    if |b| == 0 then []
    else if |b| == 1 then Pack(b[0], 0, 0)[..2]
    else if |b| == 2 then Pack(b[0], b[1], 0)[..3]
    else Pack(b[0], b[1], b[2]) + Sextets(b[3..])
  }

  /** Left-over bits of a short last group are dropped. */
  function Unsextets(d: seq<nat>): seq<nat> {
    if |d| <= 1 then []
    else if |d| == 2 then Unpack(d + [0, 0])[..1]
    else if |d| == 3 then Unpack(d + [0])[..2]
    else Unpack(d[..4]) + Unsextets(d[4..])
  }

  lemma ShortGroups(x: nat, y: nat)
    requires x < 256 && y < 256
    ensures Unsextets(Pack(x, 0, 0)[..2]) == [x]
    ensures Unsextets(Pack(x, y, 0)[..3]) == [x, y]
  {
    UnpackInverse(x, 0, 0);
    UnpackInverse(x, y, 0);
    assert Pack(x, 0, 0)[..2] + [0, 0] == Pack(x, 0, 0);
    assert Pack(x, y, 0)[..3] + [0] == Pack(x, y, 0);
  }

  lemma {:induction false} UnsextetsInverse(b: seq<nat>)
    requires R.DigitsIn(b, 256)
    ensures Unsextets(Sextets(b)) == b
    decreases |b|
  {
    hide Pack, Unpack;
    if |b| == 1 || |b| == 2 {
      ShortGroups(b[0], b[|b| - 1]);
    } else if |b| >= 3 {
      UnpackInverse(b[0], b[1], b[2]);
      UnsextetsInverse(b[3..]);
      var r := Sextets(b);
      assert r[..4] == Pack(b[0], b[1], b[2]) && r[4..] == Sextets(b[3..]);
      assert b == [b[0], b[1], b[2]] + b[3..];
    }
  }

  lemma PackBits(x: nat, y: nat, z: nat)
    requires x < 256 && y < 256 && z < 256
    ensures var d := Pack(x, y, z); d[0] * 262144 + d[1] * 4096 + d[2] * 64 + d[3] == x * 65536 + y * 256 + z
  {
  }

  /** Four sextets hold the bits of three bytes, in order. */
  ghost predicate SameBits(d: seq<nat>, i: nat, b: seq<nat>, j: nat)
    requires i + 4 <= |d| && j + 3 <= |b|
  {
    d[i] * 262144 + d[i + 1] * 4096 + d[i + 2] * 64 + d[i + 3] == b[j] * 65536 + b[j + 1] * 256 + b[j + 2]
  }

  /** Each whole group of three bytes is four sextets with the same bits, most significant first. */
  lemma {:induction false} SextetsAt(b: seq<nat>, g: nat)
    requires R.DigitsIn(b, 256) && 3 * g + 3 <= |b|
    ensures 4 * g + 4 <= |Sextets(b)| && SameBits(Sextets(b), 4 * g, b, 3 * g)
    decreases g
  {
    hide Pack;
    var d := Sextets(b);
    if g == 0 {
      PackBits(b[0], b[1], b[2]);
      assert d[..4] == Pack(b[0], b[1], b[2]);
    } else {
      SextetsAt(b[3..], g - 1);
      assert d[4..] == Sextets(b[3..]);
      SameBitsLater(d, b, 4 * g, 3 * g);
    }
  }

  lemma SameBitsLater(d: seq<nat>, b: seq<nat>, i: nat, j: nat)
    requires 4 <= i && i + 4 <= |d| && 3 <= j && j + 3 <= |b| && SameBits(d[4..], i - 4, b[3..], j - 3)
    ensures SameBits(d, i, b, j)
  {
    assert d[4..][i - 4] == d[i] && d[4..][i - 3] == d[i + 1] && d[4..][i - 2] == d[i + 2] && d[4..][i - 1] == d[i + 3];
    assert b[3..][j - 3] == b[j] && b[3..][j - 2] == b[j + 1] && b[3..][j - 1] == b[j + 2];
  }

  /** One or two bytes left over are two or three sextets, filled up with zero bits. */
  lemma {:induction false} LastSextets(b: seq<nat>)
    requires R.DigitsIn(b, 256)
    ensures var d, n, k := Sextets(b), |b|, |Sextets(b)|;
      && (n % 3 == 1 ==> k >= 2 && d[k - 2] * 64 + d[k - 1] == b[n - 1] * 16)
      && (n % 3 == 2 ==> k >= 3 && d[k - 3] * 4096 + d[k - 2] * 64 + d[k - 1] == (b[n - 2] * 256 + b[n - 1]) * 4)
    decreases |b|
  {
    if |b| >= 3 {
      hide Pack;
      LastSextets(b[3..]);
      assert Sextets(b)[4..] == Sextets(b[3..]);
    }
  }

  // ----- Base64 text -----

  function CharOf(d: nat): (c: char)
    requires d < 64
    ensures DigitOf(c) == d && c != '='
  {
    if d < 26 then ('A' as nat + d) as char
    else if d < 52 then ('a' as nat + d - 26) as char
    else if d < 62 then ('0' as nat + d - 52) as char
    else if d == 62 then '+' else '/'
  }

  /** 64 for a character outside the alphabet. */
  function DigitOf(c: char): nat {
    if 'A' <= c <= 'Z' then c as nat - 'A' as nat
    else if 'a' <= c <= 'z' then c as nat - 'a' as nat + 26
    else if '0' <= c <= '9' then c as nat - '0' as nat + 52
    else if c == '+' then 62 else if c == '/' then 63 else 64
  }

  function Chars(d: seq<nat>): (s: string)
    requires R.DigitsIn(d, 64)
    ensures |s| == |d| && forall i :: 0 <= i < |d| ==> s[i] == CharOf(d[i])
  {
    seq(|d|, i requires 0 <= i < |d| => CharOf(d[i]))
  }

  function Digits(s: string): (d: seq<nat>)
    ensures |d| == |s| && forall i :: 0 <= i < |s| ==> d[i] == DigitOf(s[i])
  {
    seq(|s|, i requires 0 <= i < |s| => DigitOf(s[i]))
  }

  function Replace(s: string, a: char, b: char): (r: string)
    ensures |r| == |s| && forall i :: 0 <= i < |s| ==> r[i] == if s[i] == a then b else s[i]
  {
    seq(|s|, i requires 0 <= i < |s| => if s[i] == a then b else s[i])
  }

  function StripPadding(s: string): (r: string)
    ensures |r| <= |s| && r == s[..|r|]
  {
    if s != "" && s[|s| - 1] == '=' then StripPadding(s[..|s| - 1]) else s
  }

  function ToBase64(b: seq<nat>): string
    requires R.DigitsIn(b, 256)
  {
    Chars(Sextets(b)) + Repeat('=', (3 - |b| % 3) % 3)
  }

  /** Four-character groups of the alphabet, the last one possibly padded. */
  predicate WellFormed(s: string) {
    && |s| % 4 == 0 && |s| - |StripPadding(s)| <= 2
    && forall i :: 0 <= i < |StripPadding(s)| ==> DigitOf(StripPadding(s)[i]) < 64
  }

  function FromBase64(s: string, lenient: string -> seq<nat>): seq<nat> {
    if WellFormed(s) then Unsextets(Digits(StripPadding(s))) else lenient(s)
  }

  function Base64UrlEncode(b: seq<nat>): string
    requires R.DigitsIn(b, 256)
  {
    StripPadding(Replace(Replace(ToBase64(b), '+', '-'), '/', '_'))
  }

  function Base64UrlDecode(s: string, lenient: string -> seq<nat>): seq<nat> {
    var t := Replace(Replace(s, '-', '+'), '_', '/');
    var pad := 4 - |t| % 4;
    FromBase64(if pad != 4 then t + Repeat('=', pad) else t, lenient)
  }

  lemma {:induction false} StripPaddingOf(body: string, n: nat)
    requires body == "" || body[|body| - 1] != '='
    ensures StripPadding(body + Repeat('=', n)) == body
    decreases n
  {
    if n == 0 {
      assert body + Repeat('=', 0) == body;
    } else {
      assert (body + Repeat('=', n))[..|body| + n - 1] == body + Repeat('=', n - 1);
      StripPaddingOf(body, n - 1);
    }
  }

  /** The URL-safe text is the sextets in the URL-safe alphabet, with no padding and no point. */
  lemma UrlText(b: seq<nat>)
    requires R.DigitsIn(b, 256)
    ensures Base64UrlEncode(b) == Replace(Replace(Chars(Sextets(b)), '+', '-'), '/', '_')
    ensures forall i :: 0 <= i < |Base64UrlEncode(b)| ==> Base64UrlEncode(b)[i] !in ".=+/"
  {
    var body := Chars(Sextets(b));
    var n := (3 - |b| % 3) % 3;
    var swapped := Replace(Replace(body, '+', '-'), '/', '_');
    assert Replace(Replace(body + Repeat('=', n), '+', '-'), '/', '_') == swapped + Repeat('=', n);
    forall i | 0 <= i < |swapped| ensures swapped[i] !in ".=+/" {
      assert DigitOf(body[i]) < 64;
    }
    StripPaddingOf(swapped, n);
  }

  const URL_ALPHABET := "ABCDEFGHIJKLMNOPQRSTUVWXYZ" + "abcdefghijklmnopqrstuvwxyz" + "0123456789" + "-_"

  /** The text is one character of the URL-safe alphabet for each sextet. */
  lemma TextIsSextets(b: seq<nat>, i: nat)
    requires R.DigitsIn(b, 256) && i < |Sextets(b)|
    ensures |Base64UrlEncode(b)| == |Sextets(b)| && |URL_ALPHABET| == 64
    ensures Base64UrlEncode(b)[i] == URL_ALPHABET[Sextets(b)[i]]
  {
    hide Sextets, Base64UrlEncode;
    UrlText(b);
    AlphabetAt(Sextets(b)[i]);
  }

  lemma AlphabetAt(d: nat)
    requires d < 64
    ensures |URL_ALPHABET| == 64
    ensures URL_ALPHABET[d] == if CharOf(d) == '+' then '-' else if CharOf(d) == '/' then '_' else CharOf(d)
  {
    if d < 26 { assert URL_ALPHABET[d] == "ABCDEFGHIJKLMNOPQRSTUVWXYZ"[d]; }
    else if d < 52 { assert URL_ALPHABET[d] == "abcdefghijklmnopqrstuvwxyz"[d - 26]; }
    else if d < 62 { assert URL_ALPHABET[d] == "0123456789"[d - 52]; }
    else { assert URL_ALPHABET[d] == "-_"[d - 62]; }
  }

  /** Undoing the URL-safe replacements gives back the plain alphabet. */
  lemma Unreplaced(d: seq<nat>)
    requires R.DigitsIn(d, 64)
    ensures Replace(Replace(Replace(Replace(Chars(d), '+', '-'), '/', '_'), '-', '+'), '_', '/') == Chars(d)
  {
    var body := Chars(d);
    forall i | 0 <= i < |body| ensures body[i] != '-' && body[i] != '_' {
      assert DigitOf(body[i]) < 64;
    }
  }

  /** The decoder reads its padded text back as the sextets. */
  lemma PaddedText(d: seq<nat>, n: nat, lenient: string -> seq<nat>)
    requires R.DigitsIn(d, 64) && n <= 2 && (|d| + n) % 4 == 0
    ensures FromBase64(Chars(d) + Repeat('=', n), lenient) == Unsextets(d)
  {
    hide CharOf, DigitOf, StripPadding, Unsextets;
    var body := Chars(d);
    forall i | 0 <= i < |body| ensures DigitOf(body[i]) == d[i] && body[i] != '=' {
      assert body[i] == CharOf(d[i]);
    }
    StripPaddingOf(body, n);
    var s := body + Repeat('=', n);
    assert StripPadding(s) == body;
    assert WellFormed(s) by {
      hide Chars, Digits, Repeat;
    }
    assert Digits(body) == d;
  }

  lemma DecodeText(s: string, body: string, lenient: string -> seq<nat>)
    requires Replace(Replace(s, '-', '+'), '_', '/') == body
    ensures Base64UrlDecode(s, lenient) == FromBase64(body + Repeat('=', (4 - |body| % 4) % 4), lenient)
  {
    hide FromBase64, Replace;
    if |body| % 4 == 0 { assert body + Repeat('=', 0) == body; }
  }

  /** Base64url decodes back, whatever the length of the input. */
  lemma Base64UrlRoundTrip(b: seq<nat>, lenient: string -> seq<nat>)
    requires R.DigitsIn(b, 256)
    ensures Base64UrlDecode(Base64UrlEncode(b), lenient) == b
  {
    hide *;
    var d := Sextets(b);
    UrlText(b);
    Unreplaced(d);
    DecodeText(Base64UrlEncode(b), Chars(d), lenient);
    PaddedText(d, (4 - |d| % 4) % 4, lenient);
    UnsextetsInverse(b);
  }

  // ----- Tokens -----

  /** An absent pubkey or expiry reads as "" or 0. */
  datatype Payload = Payload(p: string, e: int)

  datatype Env = Env(mac: string -> seq<nat>, stringify: Payload -> seq<nat>, parse: seq<nat> -> Option<Payload>, lenient: string -> seq<nat>)

  /** What HMAC and JSON are relied on for. */
  ghost predicate Sound(v: Env) {
    && (forall s :: R.DigitsIn(v.mac(s), 256))
    && (forall x :: R.DigitsIn(v.stringify(x), 256) && v.stringify(x) != [] && v.parse(v.stringify(x)) == Some(x))
  }

  function IndexOf(s: string, c: char, from: nat): (k: nat)
    requires from <= |s|
    ensures from <= k <= |s| && (k < |s| ==> s[k] == c) && forall i :: from <= i < k ==> s[i] != c
    decreases |s| - from
  {
    if from == |s| || s[from] == c then from else IndexOf(s, c, from + 1)
  }

  ghost function Create(v: Env, pubkey: string, nowMs: int): string
    requires Sound(v)
  {
    var b64 := Base64UrlEncode(v.stringify(Payload(pubkey, nowMs / 1000 + SESSION_TTL_SEC)));
    b64 + "." + Base64UrlEncode(v.mac(b64))
  }

  function Verify(v: Env, token: string, nowMs: int): Option<string> {
    var dot := IndexOf(token, '.', 0);
    if token == "" || dot == |token| || dot == 0 then None
    else
      var b64, sigB64 := token[..dot], token[dot + 1..];
      if v.mac(b64) != Base64UrlDecode(sigB64, v.lenient) then None
      else
        match v.parse(Base64UrlDecode(b64, v.lenient))
        case None => None
        case Some(payload) =>
          if payload.e != 0 && payload.e < nowMs / 1000 then None
          else if payload.p == "" then None
          else Some(payload.p)
  }

  lemma IndexOfFirst(head: string, tail: string)
    requires forall i :: 0 <= i < |head| ==> head[i] != '.'
    ensures IndexOf(head + "." + tail, '.', 0) == |head|
  {
    var s := head + "." + tail;
    assert s[|head|] == '.';
    assert forall i :: 0 <= i < |head| ==> s[i] == head[i];
  }

  /** The first point always separates the two parts of a created token. */
  lemma FirstPointSplits(v: Env, pubkey: string, nowMs: int)
    requires Sound(v)
    ensures var b64 := Base64UrlEncode(v.stringify(Payload(pubkey, nowMs / 1000 + SESSION_TTL_SEC)));
      var token := Create(v, pubkey, nowMs);
      var dot := IndexOf(token, '.', 0);
      0 < dot < |token| && token[..dot] == b64 && token[dot + 1..] == Base64UrlEncode(v.mac(b64))
  {
    hide Base64UrlEncode, Sextets, IndexOf;
    var bytes := v.stringify(Payload(pubkey, nowMs / 1000 + SESSION_TTL_SEC));
    UrlText(bytes);
    var b64 := Base64UrlEncode(bytes);
    assert |b64| == |Sextets(bytes)| > 0;
    IndexOfFirst(b64, Base64UrlEncode(v.mac(b64)));
  }

  /** A created token yields its pubkey exactly until its expiry second has passed, and never an empty one. */
  lemma CreatedTokenVerifies(v: Env, pubkey: string, createdMs: int, nowMs: int)
    requires Sound(v) && createdMs >= 0
    ensures Verify(v, Create(v, pubkey, createdMs), nowMs) ==
      if pubkey != "" && nowMs / 1000 <= createdMs / 1000 + 86_400 then Some(pubkey) else None
  {
    hide Base64UrlEncode, Base64UrlDecode;
    var x := Payload(pubkey, createdMs / 1000 + SESSION_TTL_SEC);
    FirstPointSplits(v, pubkey, createdMs);
    Base64UrlRoundTrip(v.stringify(x), v.lenient);
    Base64UrlRoundTrip(v.mac(Base64UrlEncode(v.stringify(x))), v.lenient);
  }

  lemma NoPointNothing(v: Env, token: string, nowMs: int)
    requires token == "" || token[0] == '.' || forall i :: 0 <= i < |token| ==> token[i] != '.'
    ensures Verify(v, token, nowMs) == None
  {
  }

  /**
   A token is accepted for a pubkey exactly when what follows its first point decodes to the HMAC of what
   stands before it, and that decodes to a payload naming the pubkey whose expiry, if any, has not passed.
   */
  lemma VerifiesIff(v: Env, head: string, sig: string, nowMs: int, pubkey: string)
    requires head != "" && forall i :: 0 <= i < |head| ==> head[i] != '.'
    ensures Verify(v, head + "." + sig, nowMs) == Some(pubkey) <==>
      && Base64UrlDecode(sig, v.lenient) == v.mac(head) && pubkey != ""
      && exists e: int :: v.parse(Base64UrlDecode(head, v.lenient)) == Some(Payload(pubkey, e)) && (e == 0 || nowMs / 1000 <= e)
  {
    hide Base64UrlDecode, IndexOf;
    IndexOfFirst(head, sig);
    var token := head + "." + sig;
    assert token[..|head|] == head && token[|head| + 1..] == sig;
    var payload := v.parse(Base64UrlDecode(head, v.lenient));
    if payload.Some? { assert payload == Some(Payload(payload.value.p, payload.value.e)); }
  }

  /** Nothing is accepted unless its second part decodes to the HMAC of its first. */
  lemma AcceptedMeansSigned(v: Env, token: string, nowMs: int)
    requires Verify(v, token, nowMs).Some?
    ensures exists b64, sig :: token == b64 + "." + sig && b64 != "" && Base64UrlDecode(sig, v.lenient) == v.mac(b64)
  {
    hide Base64UrlDecode, IndexOf;
    var dot := IndexOf(token, '.', 0);
    assert token == token[..dot] + "." + token[dot + 1..];
  }
}
