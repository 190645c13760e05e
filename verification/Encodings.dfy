/**
 The browser's byte encodings (apps/principal/src/lib/webauthn.ts:414-440). `btoa` and `atob` are
 the browser's: base64 as in section 4 of RFC 4648, decoded forgivingly (white space skipped, padding
 optional, left-over bits dropped). The code adds the alphabet and the missing padding of section 5.
 */
module Encodings {
  import opened Domain

  type Byte = x: nat | x < 256
  type Sextet = x: nat | x < 64

  // ---- Sextets ----

  /** Three bytes make four sextets; one or two left over make two or three. */
  function Sextets(b: seq<Byte>): (r: seq<Sextet>)
    ensures |r| == (4 * |b| + 2) / 3
  {
    if |b| == 0 then []
    else if |b| == 1 then [b[0] / 4, b[0] % 4 * 16]
    else if |b| == 2 then [b[0] / 4, b[0] % 4 * 16 + b[1] / 16, b[1] % 16 * 4]
    else [b[0] / 4, b[0] % 4 * 16 + b[1] / 16, b[1] % 16 * 4 + b[2] / 64, b[2] % 64] + Sextets(b[3..])
  }

  /** The text's length, with and without padding. */
  lemma LengthMod(k: nat)
    ensures (4 * k + 2) / 3 == 4 * (k / 3) + if k % 3 == 0 then 0 else k % 3 + 1
    ensures (4 * k + 2) / 3 % 4 != 1
    ensures ((4 * k + 2) / 3 + (3 - k % 3) % 3) % 4 == 0
    ensures (4 - (4 * k + 2) / 3 % 4) % 4 == (3 - k % 3) % 3
  {
    var q, r := k / 3, k % 3;
    assert k == 3 * q + r;
    assert 4 * k + 2 == 3 * (4 * q) + 4 * r + 2;
    assert (4 * k + 2) / 3 == 4 * q + (4 * r + 2) / 3;
  }

  function First(e: nat, f: nat): Byte
    requires e < 64 && f < 64
  {
    e * 4 + f / 16
  }

  function Second(f: nat, g: nat): Byte
    requires f < 64 && g < 64
  {
    f % 16 * 16 + g / 4
  }

  function Third(g: nat, h: nat): Byte
    requires g < 64 && h < 64
  {
    g % 4 * 64 + h
  }

  function Bytes(e: seq<Sextet>): seq<Byte>
    requires |e| % 4 != 1
  {
    if |e| == 0 then []
    else if |e| == 2 then [First(e[0], e[1])]
    else if |e| == 3 then [First(e[0], e[1]), Second(e[1], e[2])]
    else [First(e[0], e[1]), Second(e[1], e[2]), Third(e[2], e[3])] + Bytes(e[4..])
  }

  lemma GroupRoundTrip(b0: Byte, b1: Byte, b2: Byte)
    ensures var e, f, g, h := b0 / 4, b0 % 4 * 16 + b1 / 16, b1 % 16 * 4 + b2 / 64, b2 % 64;
      First(e, f) == b0 && Second(f, g) == b1 && Third(g, h) == b2
    ensures First(b0 / 4, b0 % 4 * 16) == b0
    ensures Second(b0 % 4 * 16 + b1 / 16, b1 % 16 * 4) == b1 && First(b0 / 4, b0 % 4 * 16 + b1 / 16) == b0
  {}

  lemma {:induction false} BytesOfSextets(b: seq<Byte>)
    ensures |Sextets(b)| % 4 != 1 && Bytes(Sextets(b)) == b
  {
    LengthMod(|b|);
    hide Bytes, Sextets;
    if |b| < 3 {
      LastGroup(b);
    } else {
      var e, f, g, h := GroupOff(b);
      BytesOfSextets(b[3..]);
      GroupOn([e, f, g, h], Sextets(b[3..]));
      hide First, Second, Third;
      assert b == [b[0], b[1], b[2]] + b[3..];
    }
  }

  lemma LastGroup(b: seq<Byte>)
    requires |b| < 3
    ensures |Sextets(b)| % 4 != 1 && Bytes(Sextets(b)) == b
  {
    hide First, Second, Third;
    if |b| == 1 {
      GroupRoundTrip(b[0], 0, 0);
    } else if |b| == 2 {
      GroupRoundTrip(b[0], b[1], 0);
    }
  }

  /** The first three bytes and the first four sextets. */
  lemma GroupOff(b: seq<Byte>) returns (e: Sextet, f: Sextet, g: Sextet, h: Sextet)
    requires |b| >= 3
    ensures Sextets(b) == [e, f, g, h] + Sextets(b[3..])
    ensures First(e, f) == b[0] && Second(f, g) == b[1] && Third(g, h) == b[2]
  {
    hide First, Second, Third;
    e, f, g, h := b[0] / 4, b[0] % 4 * 16 + b[1] / 16, b[1] % 16 * 4 + b[2] / 64, b[2] % 64;
    GroupRoundTrip(b[0], b[1], b[2]);
  }

  lemma GroupOn(e: seq<Sextet>, rest: seq<Sextet>)
    requires |e| == 4 && |rest| % 4 != 1
    ensures |e + rest| % 4 != 1
    ensures Bytes(e + rest) == [First(e[0], e[1]), Second(e[1], e[2]), Third(e[2], e[3])] + Bytes(rest)
  {
    hide First, Second, Third;
    assert (e + rest)[4..] == rest;
  }

  // ---- Characters ----

  function StandardChar(e: nat): char
    requires e < 64
  {
    if e < 26 then 'A' + e as char
    else if e < 52 then 'a' + (e - 26) as char
    else if e < 62 then '0' + (e - 52) as char
    else if e == 62 then '+' else '/'
  }

  function UrlChar(e: nat): char
    requires e < 64
  {
    if e == 62 then '-' else if e == 63 then '_' else StandardChar(e)
  }

  function SextetOf(c: char): Option<Sextet> {
    if 'A' <= c <= 'Z' then Some(c as int - 'A' as int)
    else if 'a' <= c <= 'z' then Some(c as int - 'a' as int + 26)
    else if '0' <= c <= '9' then Some(c as int - '0' as int + 52)
    else if c == '+' then Some(62) else if c == '/' then Some(63) else None
  }

  lemma CharFacts(e: nat)
    requires e < 64
    ensures SextetOf(StandardChar(e)) == Some(e)
    ensures StandardChar(e) !in "-_= \t\n\r" && StandardChar(e) as int != 12
    ensures StandardChar(e) == '+' <==> e == 62
    ensures StandardChar(e) == '/' <==> e == 63
    ensures UrlChar(e) !in "+/="
  {}

  /** The unpadded text of a string of sextets. */
  function Standard(e: seq<Sextet>): string {
    seq(|e|, i requires 0 <= i < |e| => StandardChar(e[i]))
  }

  function Url(e: seq<Sextet>): string {
    seq(|e|, i requires 0 <= i < |e| => UrlChar(e[i]))
  }

  function Padding(n: nat): string
    requires n <= 3
  {
    ['=', '=', '='][..n]
  }

  /** btoa of the bytes as characters: section 4 of RFC 4648. */
  function Btoa(b: seq<Byte>): string {
    Standard(Sextets(b)) + Padding((3 - |b| % 3) % 3)
  }

  // ---- String.replace with a global one-character pattern ----

  function ReplaceChar(s: string, from: char, to: char): string {
    seq(|s|, i requires 0 <= i < |s| => if s[i] == from then to else s[i])
  }

  function RemoveChar(s: string, c: char): string {
    if s == "" then "" else (if s[0] == c then "" else [s[0]]) + RemoveChar(s[1..], c)
  }

  // ---- atob ----

  predicate IsSpace(c: char) {
    c in " \t\n\r" || c as int == 12
  }

  function WithoutSpace(s: string): string {
    if s == "" then "" else (if IsSpace(s[0]) then "" else [s[0]]) + WithoutSpace(s[1..])
  }

  function WithoutPadding(s: string): string {
    if |s| % 4 == 0 && |s| >= 2 && s[|s| - 1] == '=' then
      if s[|s| - 2] == '=' then s[..|s| - 2] else s[..|s| - 1]
    else s
  }

  predicate AllStandard(s: string) {
    forall i :: 0 <= i < |s| ==> SextetOf(s[i]).Some?
  }

  function SextetsOf(s: string): seq<Sextet>
    requires AllStandard(s)
  {
    seq(|s|, i requires 0 <= i < |s| => SextetOf(s[i]).value)
  }

  /** None is the exception. */
  function Atob(s: string): Option<seq<Byte>> {
    var t := WithoutPadding(WithoutSpace(s));
    if |t| % 4 == 1 || !AllStandard(t) then None else Some(Bytes(SextetsOf(t)))
  }

  // ---- The code ----

  /** Section 5 of RFC 4648, without padding. */
  function UrlEncoded(b: seq<Byte>): string {
    Url(Sextets(b))
  }

  method ToBase64Url(bytes: seq<Byte>) returns (r: string)
    ensures r == UrlEncoded(bytes)
  {
    var binary: seq<Byte> := [];
    for i := 0 to |bytes|
      invariant binary == bytes[..i]
    {
      binary := binary + [bytes[i]];
    }
    assert binary == bytes;
    r := Btoa(binary);
    r := ReplaceChar(r, '+', '-');
    r := ReplaceChar(r, '/', '_');
    r := RemoveChar(r, '=');
    ToUrl(bytes);
  }

  function FromBase64Url(s: string): Option<seq<Byte>> {
    var padded := ReplaceChar(ReplaceChar(s, '-', '+'), '_', '/');
    Atob(padded + Padding((4 - |padded| % 4) % 4))
  }

  lemma {:induction false} RemoveFromTail(s: string, n: nat)
    requires n <= 3 && '=' !in s
    ensures RemoveChar(s + Padding(n), '=') == s
  {
    if s == "" {
      assert s + Padding(n) == Padding(n);
      if n > 0 {
        assert Padding(n)[1..] == Padding(n - 1);
        RemoveFromTail(s, n - 1);
        assert s + Padding(n - 1) == Padding(n - 1);
      }
    } else {
      assert (s + Padding(n))[1..] == s[1..] + Padding(n);
      RemoveFromTail(s[1..], n);
      assert s == [s[0]] + s[1..];
    }
  }

  /** Substituting two characters and dropping the padding turns section 4 into section 5. */
  lemma ToUrl(b: seq<Byte>)
    ensures RemoveChar(ReplaceChar(ReplaceChar(Btoa(b), '+', '-'), '/', '_'), '=') == UrlEncoded(b)
  {
    var e := Sextets(b);
    var n := (3 - |b| % 3) % 3;
    forall i | 0 <= i < |e|
      ensures UrlChar(e[i]) == ReplaceChar(ReplaceChar(Btoa(b), '+', '-'), '/', '_')[i] && UrlChar(e[i]) != '='
    {
      CharFacts(e[i]);
    }
    assert ReplaceChar(ReplaceChar(Btoa(b), '+', '-'), '/', '_') == Url(e) + Padding(n);
    RemoveFromTail(Url(e), n);
  }

  lemma {:induction false} NoSpace(s: string)
    requires forall i :: 0 <= i < |s| ==> !IsSpace(s[i])
    ensures WithoutSpace(s) == s
  {
    if s != "" {
      NoSpace(s[1..]);
      assert s == [s[0]] + s[1..];
    }
  }

  /** The substitution back and the restored padding give btoa's own text again. */
  lemma FromUrl(b: seq<Byte>)
    ensures var padded := ReplaceChar(ReplaceChar(UrlEncoded(b), '-', '+'), '_', '/');
      padded + Padding((4 - |padded| % 4) % 4) == Btoa(b)
  {
    var e := Sextets(b);
    forall i | 0 <= i < |e|
      ensures StandardChar(e[i]) == ReplaceChar(ReplaceChar(Url(e), '-', '+'), '_', '/')[i]
    {
      CharFacts(e[i]);
    }
    assert ReplaceChar(ReplaceChar(Url(e), '-', '+'), '_', '/') == Standard(e);
    LengthMod(|b|);
  }

  lemma PaddingStripped(s: string, n: nat)
    requires '=' !in s && n <= 2 && (|s| + n) % 4 == 0
    ensures WithoutPadding(s + Padding(n)) == s
  {
    var t := s + Padding(n);
    assert t[..|s|] == s && |t| == |s| + n;
    if n == 0 {
      assert t == s && (s != "" ==> s[|s| - 1] in s);
    } else if n == 1 {
      assert t[|t| - 1] == '=' && s[|s| - 1] in s && t[|t| - 2] == s[|s| - 1];
    } else {
      assert t[|t| - 1] == '=' && t[|t| - 2] == '=';
    }
  }

  lemma StandardFacts(e: seq<Sextet>)
    ensures var s := Standard(e);
      && AllStandard(s) && SextetsOf(s) == e && '=' !in s && forall i :: 0 <= i < |s| ==> !IsSpace(s[i])
  {
    hide StandardChar, SextetOf;
    var s := Standard(e);
    forall i | 0 <= i < |e|
      ensures SextetOf(s[i]) == Some(e[i]) && !IsSpace(s[i]) && s[i] != '='
    {
      CharFacts(e[i]);
    }
  }

  lemma BtoaHasNoSpace(b: seq<Byte>)
    ensures WithoutSpace(Btoa(b)) == Btoa(b)
  {
    hide Sextets, Standard;
    var s := Standard(Sextets(b));
    StandardFacts(Sextets(b));
    assert forall i :: 0 <= i < |Btoa(b)| ==> Btoa(b)[i] == if i < |s| then s[i] else '=';
    NoSpace(Btoa(b));
  }

  lemma AtobOfBtoa(b: seq<Byte>)
    ensures Atob(Btoa(b)) == Some(b)
  {
    hide Sextets, Standard, SextetOf, WithoutPadding, WithoutSpace, SextetsOf, Bytes, AllStandard, Padding, IsSpace;
    var e := Sextets(b);
    StandardFacts(e);
    StandardLength(e);
    BtoaHasNoSpace(b);
    LengthMod(|b|);
    PaddingStripped(Standard(e), (3 - |b| % 3) % 3);
    BytesOfSextets(b);
  }

  lemma StandardLength(e: seq<Sextet>)
    ensures |Standard(e)| == |e|
  {}

  /** Every byte string survives the way there and back. */
  lemma Base64UrlRoundTrip(b: seq<Byte>)
    ensures FromBase64Url(UrlEncoded(b)) == Some(b)
  {
    FromUrl(b);
    AtobOfBtoa(b);
  }

  /** The text is URL-safe and unpadded, four characters to three bytes, and tells byte strings apart. */
  lemma UrlEncodedShape(b: seq<Byte>, c: seq<Byte>)
    ensures |UrlEncoded(b)| == (4 * |b| + 2) / 3
    ensures forall i :: 0 <= i < |UrlEncoded(b)| ==> UrlEncoded(b)[i] !in "+/="
    ensures UrlEncoded(b) == UrlEncoded(c) ==> b == c
  {
    forall i | 0 <= i < |UrlEncoded(b)|
      ensures UrlEncoded(b)[i] !in "+/="
    {
      CharFacts(Sextets(b)[i]);
    }
    Base64UrlRoundTrip(b);
    Base64UrlRoundTrip(c);
  }

  /** The alphabet of section 5 of RFC 4648. */
  const ALPHABET: string := CAPITAL_LETTERS + SMALL_LETTERS + "0123456789-_"
  const CAPITAL_LETTERS: string := "ABCDEFGHIJKLMNOPQRSTUVWXYZ"
  const SMALL_LETTERS: string := "abcdefghijklmnopqrstuvwxyz"

  lemma AlphabetIs(e: nat)
    requires e < 64
    ensures |ALPHABET| == 64 && UrlChar(e) == ALPHABET[e]
  {
    if e < 26 {
      assert UrlChar(e) == CAPITAL_LETTERS[e];
    } else if e < 52 {
      assert UrlChar(e) == SMALL_LETTERS[e - 26];
    } else {
      assert UrlChar(e) == "0123456789-_"[e - 52];
    }
  }

  function ByteAt(b: seq<Byte>, j: nat): Byte {
    if j < |b| then b[j] else 0
  }

  /** The 24-bit number of three bytes, zero bits added on the right where bytes are missing. */
  function Group(b: seq<Byte>, i: nat): nat {
    ByteAt(b, 3 * i) * 65536 + ByteAt(b, 3 * i + 1) * 256 + ByteAt(b, 3 * i + 2)
  }

  /** What the sextet at place `k % 4` of the four counts. */
  function Place(k: nat): nat {
    match k % 4
    case 0 => 262144
    case 1 => 4096
    case 2 => 64
    case _ => 1
  }

  lemma SplitGroup(b0: Byte, b1: Byte, b2: Byte)
    ensures var n := b0 * 65536 + b1 * 256 + b2;
      && n / 262144 % 64 == b0 / 4
      && n / 4096 % 64 == b0 % 4 * 16 + b1 / 16
      && n / 64 % 64 == b1 % 16 * 4 + b2 / 64
      && n % 64 == b2 % 64
  {
    Digits64(b0 / 4, b0 % 4 * 16 + b1 / 16, b1 % 16 * 4 + b2 / 64, b2 % 64);
    assert b0 * 65536 + b1 * 256 + b2
        == ((b0 / 4 * 64 + (b0 % 4 * 16 + b1 / 16)) * 64 + (b1 % 16 * 4 + b2 / 64)) * 64 + b2 % 64 by {
      assert b0 == b0 / 4 * 4 + b0 % 4 && b1 == b1 / 16 * 16 + b1 % 16 && b2 == b2 / 64 * 64 + b2 % 64;
    }
  }

  lemma Digits64(e: Sextet, f: Sextet, g: Sextet, h: Sextet)
    ensures var n := ((e * 64 + f) * 64 + g) * 64 + h;
      n / 262144 % 64 == e && n / 4096 % 64 == f && n / 64 % 64 == g && n % 64 == h
  {
    var n := ((e * 64 + f) * 64 + g) * 64 + h;
    Shift(n, 64, (e * 64 + f) * 64 + g, h);
    Shift(n, 4096, e * 64 + f, g * 64 + h);
    Shift(n, 262144, e, f * 4096 + g * 64 + h);
    Shift((e * 64 + f) * 64 + g, 64, e * 64 + f, g);
    Shift(e * 64 + f, 64, e, f);
    assert e % 64 == e;
  }

  lemma Shift(n: nat, m: nat, q: nat, r: nat)
    requires m in {64, 4096, 262144} && r < m && n == q * m + r
    ensures n / m == q && n % m == r
  {}

  lemma {:induction false} SextetIs(b: seq<Byte>, k: nat)
    requires k < |Sextets(b)|
    ensures Sextets(b)[k] == Group(b, k / 4) / Place(k) % 64
    decreases k
  {
    hide Group, Place, Sextets;
    if k < 4 {
      FirstGroup(b, k);
    } else {
      LaterGroups(b, k);
      SextetIs(b[3..], k - 4);
    }
  }

  lemma FirstGroup(b: seq<Byte>, k: nat)
    requires k < 4 && k < |Sextets(b)|
    ensures Sextets(b)[k] == Group(b, k / 4) / Place(k) % 64
  {
    SplitGroup(ByteAt(b, 0), ByteAt(b, 1), ByteAt(b, 2));
    assert k / 4 == 0 && k % 4 == k;
    var n := Group(b, 0);
    assert n == ByteAt(b, 0) * 65536 + ByteAt(b, 1) * 256 + ByteAt(b, 2);
    hide Group;
    assert n / 1 == n;
  }

  lemma LaterGroups(b: seq<Byte>, k: nat)
    requires 4 <= k < |Sextets(b)|
    ensures |b| >= 3 && k - 4 < |Sextets(b[3..])| && Sextets(b)[k] == Sextets(b[3..])[k - 4]
    ensures Group(b, k / 4) == Group(b[3..], (k - 4) / 4) && Place(k) == Place(k - 4)
  {
    assert (k - 4) / 4 == k / 4 - 1 && (k - 4) % 4 == k % 4;
    hide Group;
    NextGroup(b, k / 4);
  }

  lemma NextGroup(b: seq<Byte>, i: nat)
    requires i >= 1 && |b| >= 3
    ensures Group(b, i) == Group(b[3..], i - 1)
  {}

  /** Character by character the text is the one the standard defines: the bits of the bytes, from the left,
      six at a time. */
  lemma UrlEncodedIs(b: seq<Byte>, k: nat)
    requires k < |UrlEncoded(b)|
    ensures UrlEncoded(b)[k] == ALPHABET[Group(b, k / 4) / Place(k) % 64]
  {
    hide Sextets, UrlChar, Group, Place;
    SextetIs(b, k);
    AlphabetIs(Sextets(b)[k]);
  }

  // ---- Other texts ----

  predicate InEitherAlphabet(c: char) {
    c in ALPHABET || c in "+/"
  }

  function Unsubstituted(c: char): char {
    if c == '-' then '+' else if c == '_' then '/' else c
  }

  lemma InAlphabet(e: nat, c: char)
    requires e < 64 && c == UrlChar(e)
    ensures InEitherAlphabet(c)
  {
    hide UrlChar;
    AlphabetIs(e);
  }

  lemma AlphabetDecodes(e: nat)
    requires e < 64
    ensures SextetOf(Unsubstituted(UrlChar(e))) == Some(e)
  {}

  lemma EitherAlphabet(c: char)
    ensures SextetOf(Unsubstituted(c)).Some? <==> InEitherAlphabet(c)
  {
    if SextetOf(Unsubstituted(c)).Some? && c !in "+/" {
      assert c == UrlChar(SextetOf(Unsubstituted(c)).value) by { hide InEitherAlphabet; }
      InAlphabet(SextetOf(Unsubstituted(c)).value, c);
    }
    hide UrlChar, SextetOf;
    if InEitherAlphabet(c) && c !in "+/" {
      var e := Position(c);
      AlphabetDecodes(e);
    } else if c in "+/" {
      PlusAndSlash(c);
    }
  }

  lemma Position(c: char) returns (e: nat)
    requires c in ALPHABET
    ensures e < 64 && c == UrlChar(e)
  {
    hide UrlChar;
    e :| 0 <= e < |ALPHABET| && c == ALPHABET[e];
    AlphabetIs(e);
  }

  lemma PlusAndSlash(c: char)
    requires c in "+/"
    ensures SextetOf(Unsubstituted(c)).Some? && InEitherAlphabet(c)
  {}

  /** Of a text without white space and padding the decoder takes exactly those of the right length over
      either alphabet, and makes three bytes of four characters. */
  lemma DecodesIff(s: string)
    requires forall i :: 0 <= i < |s| ==> !IsSpace(s[i]) && s[i] != '='
    ensures FromBase64Url(s).Some? <==> |s| % 4 != 1 && forall i :: 0 <= i < |s| ==> InEitherAlphabet(s[i])
    ensures FromBase64Url(s).Some? ==> |FromBase64Url(s).value| == |s| * 3 / 4
  {
    hide InEitherAlphabet, SextetOf, ReplaceChar, Atob, Padding, IsSpace, Unsubstituted;
    var t := ReplaceChar(ReplaceChar(s, '-', '+'), '_', '/');
    Substituted(s);
    forall i | 0 <= i < |s|
      ensures !IsSpace(t[i]) && t[i] != '=' && (SextetOf(t[i]).Some? <==> InEitherAlphabet(s[i]))
    {
      EitherAlphabet(s[i]);
      NoneNew(s[i]);
    }
    AtobPadded(t, (4 - |t| % 4) % 4);
  }

  lemma Substituted(s: string)
    ensures var t := ReplaceChar(ReplaceChar(s, '-', '+'), '_', '/');
      |t| == |s| && forall i :: 0 <= i < |s| ==> t[i] == Unsubstituted(s[i])
  {}

  lemma NoneNew(c: char)
    ensures !IsSpace(c) && c != '=' ==> !IsSpace(Unsubstituted(c)) && Unsubstituted(c) != '='
  {}

  lemma AtobPadded(t: string, n: nat)
    requires n == (4 - |t| % 4) % 4 && forall i :: 0 <= i < |t| ==> !IsSpace(t[i]) && t[i] != '='
    ensures Atob(t + Padding(n)).Some? <==> |t| % 4 != 1 && forall i :: 0 <= i < |t| ==> SextetOf(t[i]).Some?
    ensures Atob(t + Padding(n)).Some? ==> |Atob(t + Padding(n)).value| == |t| * 3 / 4
  {
    hide SextetOf, Bytes;
    NoSpace(t + Padding(n));
    if n == 3 {
      LongPadding(t);
    } else {
      assert WithoutPadding(t + Padding(n)) == t by { PaddingStripped(t, n); }
      if |t| % 4 != 1 && AllStandard(t) {
        BytesLength(SextetsOf(t));
      }
    }
  }

  lemma LongPadding(t: string)
    requires |t| % 4 == 1
    ensures !AllStandard(WithoutPadding(t + Padding(3)))
  {
    var s := t + Padding(3);
    assert WithoutPadding(s) == s[..|s| - 2];
    assert s[..|s| - 2][|t|] == '=';
  }

  lemma {:induction false} BytesLength(e: seq<Sextet>)
    requires |e| % 4 != 1
    ensures |Bytes(e)| == |e| * 3 / 4
  {
    if |e| >= 4 {
      BytesLength(e[4..]);
    }
  }

  /** White space anywhere makes no difference to atob. */
  lemma SpaceSkipped(a: string, c: char, b: string)
    requires c in " \t\n\r" || c as int == 12
    ensures Atob(a + [c] + b) == Atob(a + b)
  {
    WithoutSpaceConcat(a + [c], b);
    WithoutSpaceConcat(a, [c]);
    WithoutSpaceConcat(a, b);
    assert WithoutSpace([c]) == "" && WithoutSpace(a) + "" == WithoutSpace(a);
    assert WithoutSpace(a + [c] + b) == WithoutSpace(a + b);
  }

  lemma {:induction false} WithoutSpaceConcat(a: string, b: string)
    ensures WithoutSpace(a + b) == WithoutSpace(a) + WithoutSpace(b)
  {
    if a == "" {
      assert a + b == b;
    } else {
      var head := if IsSpace(a[0]) then "" else [a[0]];
      var rest := a[1..];
      WithoutSpaceConcat(rest, b);
      WithoutSpaceHead(a);
      WithoutSpaceHead(a + b);
      assert (a + b)[1..] == rest + b;
      hide WithoutSpace, IsSpace;
      Associates(head, WithoutSpace(rest), WithoutSpace(b));
    }
  }

  lemma WithoutSpaceHead(s: string)
    requires s != ""
    ensures WithoutSpace(s) == (if IsSpace(s[0]) then "" else [s[0]]) + WithoutSpace(s[1..])
  {}

  lemma Associates(a: string, b: string, c: string)
    ensures (a + b) + c == a + (b + c)
  {}

  /** Padding is accepted only where it fills a group of four. */
  lemma StrayPadding(s: string)
    requires forall i :: 0 <= i < |s| ==> !IsSpace(s[i])
    requires |s| % 4 != 0 && '=' in s
    ensures Atob(s) == None
  {
    NoSpace(s);
    var i :| 0 <= i < |s| && s[i] == '=';
    assert SextetOf(s[i]) == None;
  }

  // ---- Hexadecimal ----

  function HexDigit(n: nat): char
    requires n < 16
  {
    if n < 10 then '0' + n as char else 'a' + (n - 10) as char
  }

  /** Number.toString(16) of a byte. */
  function ToString16(b: Byte): string {
    if b < 16 then [HexDigit(b)] else [HexDigit(b / 16), HexDigit(b % 16)]
  }

  function PadStart2(s: string): string {
    if |s| >= 2 then s else if |s| == 1 then "0" + s else "00"
  }

  function Hex(b: seq<Byte>): (r: string)
    ensures |r| == 2 * |b|
  {
    if b == [] then "" else Hex(b[..|b| - 1]) + PadStart2(ToString16(b[|b| - 1]))
  }

  function HexValue(c: char): Option<nat> {
    if '0' <= c <= '9' then Some(c as int - '0' as int)
    else if 'a' <= c <= 'f' then Some(c as int - 'a' as int + 10)
    else if 'A' <= c <= 'F' then Some(c as int - 'A' as int + 10)
    else None
  }

  /** The value of the leading digits, None when there are none (NaN). */
  function LeadingDigits(s: string): Option<nat> {
    if s == "" || HexValue(s[0]).None? then None
    else if |s| == 1 || HexValue(s[1]).None? then HexValue(s[0])
    else Some(16 * HexValue(s[0]).value + HexValue(s[1]).value)
  }

  /** The white space that parseInt skips. */
  predicate IsTrimmed(c: char) {
    c in " \t\n\r" || c as int in {11, 12, 0xA0, 0x1680, 0x2028, 0x2029, 0x202F, 0x205F, 0x3000, 0xFEFF}
    || 0x2000 <= c as int <= 0x200A
  }

  /** parseInt(s, 16) of at most two characters, stored in a byte: a leading blank is skipped, a sign
      counts, NaN is stored as zero and a negative number wraps. */
  function ParseByte(s: string): Byte
    requires |s| <= 2
  {
    var t := if s != "" && (IsTrimmed(s[0]) || s[0] == '+' || s[0] == '-') then s[1..] else s;
    match LeadingDigits(t)
    case None => 0
    case Some(v) => if s[0] == '-' then (256 - v % 256) % 256 else v % 256
  }

  function FromHex(hex: string): (r: seq<Byte>)
    ensures |r| == |hex| / 2
  {
    seq(|hex| / 2, i requires 0 <= i < |hex| / 2 => ParseByte(hex[2 * i..2 * i + 2]))
  }

  method BytesToHex(bytes: seq<Byte>) returns (hex: string)
    ensures hex == Hex(bytes)
  {
    hex := "";
    for i := 0 to |bytes|
      invariant hex == Hex(bytes[..i])
    {
      assert bytes[..i + 1][..i] == bytes[..i];
      hex := hex + PadStart2(ToString16(bytes[i]));
    }
    assert bytes[..|bytes|] == bytes;
  }

  /** A last odd character falls outside the array: storing there does nothing. */
  method HexToBytes(hex: string) returns (bytes: array<Byte>)
    ensures fresh(bytes) && bytes[..] == FromHex(hex)
  {
    bytes := new Byte[|hex| / 2](_ => 0);
    var i := 0;
    while i < |hex|
      invariant i % 2 == 0 && i <= |hex| + 1
      invariant forall k :: 0 <= k < i / 2 && k < bytes.Length ==> bytes[k] == FromHex(hex)[k]
    {
      var v := ParseByte(hex[i..if i + 2 <= |hex| then i + 2 else |hex|]);
      if i / 2 < bytes.Length {
        bytes[i / 2] := v;
      }
      i := i + 2;
    }
  }

  lemma ByteRoundTrip(b: Byte)
    ensures ParseByte(PadStart2(ToString16(b))) == b
  {
    DigitValue(b / 16);
    DigitValue(b % 16);
    Padded(b);
    hide HexDigit, HexValue, ToString16, PadStart2;
  }

  lemma Padded(b: Byte)
    ensures PadStart2(ToString16(b)) == [HexDigit(b / 16), HexDigit(b % 16)]
  {}

  lemma DigitValue(d: nat)
    requires d < 16
    ensures HexValue(HexDigit(d)) == Some(d)
  {}

  lemma {:induction false} HexPrefix(b: seq<Byte>, k: nat)
    requires k <= |b|
    ensures Hex(b[..k]) <= Hex(b)
  {
    hide ToString16, PadStart2;
    if k < |b| {
      HexPrefix(b[..|b| - 1], k);
      assert b[..|b| - 1][..k] == b[..k];
    } else {
      assert b[..k] == b;
    }
  }

  lemma HexSnoc(b: seq<Byte>)
    requires b != []
    ensures Hex(b) == Hex(b[..|b| - 1]) + PadStart2(ToString16(b[|b| - 1]))
    ensures |PadStart2(ToString16(b[|b| - 1]))| == 2
  {}

  lemma HexAt(b: seq<Byte>, i: nat)
    requires i < |b|
    ensures Hex(b)[2 * i..2 * i + 2] == PadStart2(ToString16(b[i]))
  {
    hide ToString16, PadStart2, Hex;
    var p, last := b[..i + 1], PadStart2(ToString16(b[i]));
    HexSnoc(p);
    assert p[..i] == b[..i];
    HexPrefix(b, i + 1);
    SliceOfBack(Hex(b[..i]), last);
    SliceOfPrefix(Hex(p), Hex(b), 2 * i, 2 * i + 2);
  }

  lemma SliceOfPrefix(s: string, t: string, i: nat, j: nat)
    requires i <= j <= |s| && s <= t
    ensures t[i..j] == s[i..j]
  {}

  lemma SliceOfBack(s: string, t: string)
    ensures (s + t)[|s|..|s| + |t|] == t
  {}

  /** Every byte string survives, and its text is two lower-case digits a byte. */
  lemma HexRoundTrip(b: seq<Byte>)
    ensures FromHex(Hex(b)) == b
  {
    hide Hex, ParseByte, ToString16, PadStart2;
    forall i | 0 <= i < |b|
      ensures FromHex(Hex(b))[i] == b[i]
    {
      HexAt(b, i);
      ByteRoundTrip(b[i]);
    }
  }

  const DIGITS: string := "0123456789abcdef"
  const CAPITALS: string := "0123456789ABCDEF"

  /** Two digits a byte, the higher one first. */
  lemma HexIs(b: seq<Byte>, i: nat)
    requires i < |b|
    ensures Hex(b)[2 * i] == DIGITS[b[i] / 16] && Hex(b)[2 * i + 1] == DIGITS[b[i] % 16]
  {
    hide Hex, ToString16, PadStart2, HexDigit;
    HexAt(b, i);
    Padded(b[i]);
    DigitIs(b[i] / 16);
    DigitIs(b[i] % 16);
    assert Hex(b)[2 * i..2 * i + 2][0] == Hex(b)[2 * i] && Hex(b)[2 * i..2 * i + 2][1] == Hex(b)[2 * i + 1];
  }

  lemma DigitIs(v: nat)
    requires v < 16
    ensures HexDigit(v) == DIGITS[v] && HexValue(DIGITS[v]) == Some(v) && HexValue(CAPITALS[v]) == Some(v)
    ensures !IsTrimmed(DIGITS[v]) && !IsTrimmed(CAPITALS[v])
    ensures DIGITS[v] !in "+-" && CAPITALS[v] !in "+-"
  {}

  /** Digits of either case are read, and one before something else counts alone. */
  lemma FromHexIs(hex: string, i: nat, v: nat)
    requires i < |hex| / 2 && v < 16
    requires hex[2 * i] in {DIGITS[v], CAPITALS[v]}
    ensures forall w: nat :: w < 16 && hex[2 * i + 1] in {DIGITS[w], CAPITALS[w]} ==> FromHex(hex)[i] == 16 * v + w
    ensures hex[2 * i + 1] !in DIGITS && hex[2 * i + 1] !in CAPITALS ==> FromHex(hex)[i] == v
  {
    hide ParseByte;
    var s := hex[2 * i..2 * i + 2];
    assert s == [hex[2 * i], hex[2 * i + 1]] && FromHex(hex)[i] == ParseByte(s);
    forall w: nat | w < 16 && hex[2 * i + 1] in {DIGITS[w], CAPITALS[w]}
      ensures ParseByte(s) == 16 * v + w
    {
      TwoDigits(s, v, w);
    }
    OneDigit(s, v);
  }

  lemma TwoDigits(s: string, v: nat, w: nat)
    requires |s| == 2 && v < 16 && w < 16 && s[0] in {DIGITS[v], CAPITALS[v]} && s[1] in {DIGITS[w], CAPITALS[w]}
    ensures ParseByte(s) == 16 * v + w
  {
    hide HexValue, IsTrimmed;
    DigitIs(v);
    DigitIs(w);
  }

  lemma OneDigit(s: string, v: nat)
    requires |s| == 2 && v < 16 && s[0] in {DIGITS[v], CAPITALS[v]}
    ensures s[1] !in DIGITS && s[1] !in CAPITALS ==> ParseByte(s) == v
  {
    hide HexValue, IsTrimmed;
    DigitIs(v);
    NoDigit(s[1]);
  }

  lemma NoDigit(c: char)
    ensures c !in DIGITS && c !in CAPITALS ==> HexValue(c) == None
  {
    if '0' <= c <= '9' {
      assert c == DIGITS[c as int - '0' as int];
    } else if 'a' <= c <= 'f' {
      assert c == DIGITS[c as int - 'a' as int + 10];
    } else if 'A' <= c <= 'F' {
      assert c == CAPITALS[c as int - 'A' as int + 10];
    }
  }

  predicate LowerHex(c: char) {
    '0' <= c <= '9' || 'a' <= c <= 'f'
  }

  lemma DigitsRoundTrip(s: string)
    requires |s| == 2 && LowerHex(s[0]) && LowerHex(s[1])
    ensures PadStart2(ToString16(ParseByte(s))) == s
  {
    DigitBack(s[0]);
    DigitBack(s[1]);
    hide HexValue, HexDigit;
    var v, w := HexValue(s[0]).value, HexValue(s[1]).value;
    assert ParseByte(s) == 16 * v + w;
    assert (16 * v + w) / 16 == v && (16 * v + w) % 16 == w;
    assert v == 0 ==> s[0] == '0' by { ZeroDigit(s[0]); }
  }

  lemma DigitBack(c: char)
    requires LowerHex(c)
    ensures HexValue(c).Some? && HexValue(c).value < 16 && HexDigit(HexValue(c).value) == c
  {}

  lemma ZeroDigit(c: char)
    requires LowerHex(c)
    ensures HexValue(c) == Some(0) ==> c == '0'
  {}

  predicate AllLowerHex(s: string) {
    forall i :: 0 <= i < |s| ==> LowerHex(s[i])
  }

  lemma {:induction false} HexIsLower(b: seq<Byte>)
    ensures AllLowerHex(Hex(b))
  {
    if b != [] {
      HexIsLower(b[..|b| - 1]);
    }
  }

  /** The other way round: hexadecimal text comes back exactly when it is lower-case digits of even
      length. */
  lemma TextRoundTripIff(hex: string)
    ensures Hex(FromHex(hex)) == hex <==> |hex| % 2 == 0 && AllLowerHex(hex)
  {
    hide Hex, ParseByte, ToString16, PadStart2, LowerHex;
    var b := FromHex(hex);
    HexIsLower(b);
    if |hex| % 2 == 0 && AllLowerHex(hex) {
      forall k | 0 <= k < |hex|
        ensures Hex(b)[k] == hex[k]
      {
        var i := k / 2;
        HexAt(b, i);
        DigitsRoundTrip(hex[2 * i..2 * i + 2]);
        assert Hex(b)[2 * i..2 * i + 2][k - 2 * i] == Hex(b)[k];
      }
    }
  }
}
