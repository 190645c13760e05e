/**
 The two byte-level transformers (crates/paschal-transform/src/lib.rs): line-ending normalisation
 of text, and removal of a leading ID3v2 tag from audio.
 */
module Transform {
  const CR := '\r'
  const LF := '\n'
  const BOM := '\U{FEFF}'

  // ---- Text ----

  /** Every occurrence, left to right, without overlap. */
  function Replace(s: string, pattern: string, with: string): string
    requires pattern != ""
  {
    if |s| < |pattern| then s
    else if pattern <= s then with + Replace(s[|pattern|..], pattern, with)
    else [s[0]] + Replace(s[1..], pattern, with)
  }

  function StripBom(s: string): string {
    if s != "" && s[0] == BOM then s[1..] else s
  }

  /** The transformer: strip a byte-order mark, then two replacements in a row. */
  function Normalise(s: string): string {
    Replace(Replace(StripBom(s), "\r\n", "\n"), "\r", "\n")
  }

  /** One scan: each CRLF, lone CR and LF is one line end. */
  function OnePass(s: string): string {
    if s == "" then ""
    else if |s| >= 2 && s[0] == CR && s[1] == LF then [LF] + OnePass(s[2..])
    else [if s[0] == CR then LF else s[0]] + OnePass(s[1..])
  }

  function CrLfPairs(s: string): nat {
    if |s| < 2 then 0
    else if s[0] == CR && s[1] == LF then 1 + CrLfPairs(s[2..])
    else CrLfPairs(s[1..])
  }

  /** The lines of a text whose line ends may be CRLF, CR or LF. */
  function Lines(s: string): (r: seq<string>)
    ensures r != []
  {
    if s == "" then [""]
    else if |s| >= 2 && s[0] == CR && s[1] == LF then [""] + Lines(s[2..])
    else if s[0] == CR || s[0] == LF then [""] + Lines(s[1..])
    else
      var rest := Lines(s[1..]);
      [[s[0]] + rest[0]] + rest[1..]
  }

  lemma {:induction false} ReplaceCrCons(c: char, t: string)
    ensures Replace([c] + t, "\r", "\n") == [if c == CR then LF else c] + Replace(t, "\r", "\n")
  {
    var s := [c] + t;
    assert s[1..] == t;
    assert "\r" <= s <==> s[0] == CR;
  }

  /** The two chained replacements are the single scan. */
  lemma {:induction false} TwoReplacesAreOnePass(s: string)
    ensures Replace(Replace(s, "\r\n", "\n"), "\r", "\n") == OnePass(s)
    decreases |s|
  {
    if |s| < 2 {
      if |s| == 1 {
        assert s == [s[0]] + "" && s[1..] == "";
        ReplaceCrCons(s[0], "");
      }
    } else {
      assert "\r\n" <= s <==> s[0] == CR && s[1] == LF by {
        assert "\r\n" <= s <==> s[..2] == "\r\n";
      }
      if s[0] == CR && s[1] == LF {
        TwoReplacesAreOnePass(s[2..]);
        ReplaceCrCons(LF, Replace(s[2..], "\r\n", "\n"));
      } else {
        TwoReplacesAreOnePass(s[1..]);
        ReplaceCrCons(s[0], Replace(s[1..], "\r\n", "\n"));
      }
    }
  }

  lemma {:induction false} OnePassShape(s: string)
    ensures CR !in OnePass(s)
    ensures |OnePass(s)| == |s| - CrLfPairs(s)
    ensures Lines(OnePass(s)) == Lines(s)
    decreases |s|
  {
    if s != "" {
      var k := if |s| >= 2 && s[0] == CR && s[1] == LF then 2 else 1;
      OnePassShape(s[k..]);
      var head := OnePass(s)[0];
      assert OnePass(s) == [head] + OnePass(s[k..]) && OnePass(s)[1..] == OnePass(s[k..]);
    }
  }

  lemma {:induction false} OnePassIdentity(s: string)
    requires CR !in s
    ensures OnePass(s) == s
  {
    if s != "" {
      assert s[0] != CR && CR !in s[1..];
      OnePassIdentity(s[1..]);
    }
  }

  lemma CrLfPairsStripBom(s: string)
    ensures CrLfPairs(StripBom(s)) == CrLfPairs(s)
  {}

  /** The text comes out without CR, shorter by its CRLF pairs and a byte-order mark, and with the
      same lines. */
  lemma NormaliseShape(s: string)
    ensures CR !in Normalise(s)
    ensures |Normalise(s)| == |s| - CrLfPairs(s) - if s != "" && s[0] == BOM then 1 else 0
    ensures Lines(Normalise(s)) == Lines(StripBom(s))
  {
    TwoReplacesAreOnePass(StripBom(s));
    OnePassShape(StripBom(s));
    CrLfPairsStripBom(s);
  }

  lemma BomSurvives(t: string)
    ensures OnePass(t) != "" && OnePass(t)[0] == BOM <==> t != "" && t[0] == BOM
  {}

  /** The line-ending pass is idempotent; the whole transformer is so exactly on texts that do not
      begin with two byte-order marks. */
  lemma NormaliseTwice(s: string)
    ensures OnePass(OnePass(s)) == OnePass(s)
    ensures Normalise(Normalise(s)) == Normalise(s) <==> !(|s| >= 2 && s[0] == BOM && s[1] == BOM)
  {
    OnePassShape(s);
    OnePassIdentity(OnePass(s));
    hide OnePass, Replace;
    var t := StripBom(s);
    var n := Normalise(s);
    TwoReplacesAreOnePass(t);
    OnePassShape(t);
    assert n == OnePass(t);
    BomSurvives(t);
    assert n != "" && n[0] == BOM <==> t != "" && t[0] == BOM;
    TwoReplacesAreOnePass(StripBom(n));
    assert CR !in StripBom(n);
    OnePassIdentity(StripBom(n));
    assert Normalise(n) == StripBom(n);
  }

  // ---- ID3v2 ----

  type Byte = x: nat | x < 256

  /** A number's lowest bit or-ed with the one that overlaps it from the byte below. */
  function Overlapped(b: nat, bit: nat): nat {
    b - b % 2 + if b % 2 == 1 || bit == 1 then 1 else 0
  }

  /** The size field as the code reads it: four bytes shifted by 21, 14, 7 and 0 bits and or-ed, so
      that the eighth bit of each falls on the first bit of the next. */
  function TagSize(b6: Byte, b7: Byte, b8: Byte, b9: Byte): nat {
    Overlapped(b6, b7 / 128) * 0x20_0000 + Overlapped(b7, b8 / 128) % 128 * 0x4000
    + Overlapped(b8, b9 / 128) % 128 * 128 + b9 % 128
  }

  predicate HasTag(input: seq<Byte>) {
    |input| > 10 && input[0] == 0x49 && input[1] == 0x44 && input[2] == 0x33
  }

  method StripId3(input: seq<Byte>) returns (output: seq<Byte>)
    ensures output == WithoutTag(input)
  {
    output := input;
    if |output| > 10 && output[..3] == [0x49, 0x44, 0x33] {
      var headerLen := 10 + TagSize(output[6], output[7], output[8], output[9]);
      if headerLen < |output| {
        output := output[headerLen..];
      }
    }
  }

  function WithoutTag(input: seq<Byte>): seq<Byte> {
    if HasTag(input) && 10 + TagSize(input[6], input[7], input[8], input[9]) < |input|
    then input[10 + TagSize(input[6], input[7], input[8], input[9])..] else input
  }

  /** An ID3v2 tag, its size in four seven-bit bytes (ID3v2.4.0 structure, section 3.1). */
  function Tagged(version: Byte, revision: Byte, flags: Byte, payload: seq<Byte>): seq<Byte>
    requires |payload| < 0x1000_0000
  {
    [0x49, 0x44, 0x33, version, revision, flags,
     |payload| / 0x20_0000, |payload| / 0x4000 % 128, |payload| / 128 % 128, |payload| % 128] + payload
  }

  /** On seven-bit bytes nothing overlaps. */
  lemma SevenBitSize(b6: Byte, b7: Byte, b8: Byte, b9: Byte)
    requires b6 < 128 && b7 < 128 && b8 < 128 && b9 < 128
    ensures TagSize(b6, b7, b8, b9) == b6 * 0x20_0000 + b7 * 0x4000 + b8 * 128 + b9
  {
    assert Overlapped(b6, b7 / 128) == b6 && Overlapped(b7, b8 / 128) == b7 && Overlapped(b8, b9 / 128) == b8;
  }

  /** A tag before any audio is removed to the byte; a file that is a tag and nothing else is kept. The
      flags are not looked at: a footer that they announce is not part of the tag (FooterStays). */
  lemma TagRemoved(version: Byte, revision: Byte, flags: Byte, payload: seq<Byte>, audio: seq<Byte>)
    requires |payload| < 0x1000_0000
    ensures var tag := Tagged(version, revision, flags, payload);
      WithoutTag(tag + audio) == if audio == [] then tag else audio
  {
    var tag := Tagged(version, revision, flags, payload);
    var n := |payload|;
    SevenBitSize(n / 0x20_0000, n / 0x4000 % 128, n / 128 % 128, n % 128);
    SizeDigits(n);
    hide TagSize;
    assert (tag + audio)[10 + n..] == audio;
    assert audio == [] ==> tag + audio == tag;
  }

  /** The ten bytes of an ID3v2.4 footer, which the size does not count, stay in front of the audio. */
  lemma FooterStays(version: Byte, revision: Byte, flags: Byte, payload: seq<Byte>, footer: seq<Byte>, audio: seq<Byte>)
    requires |payload| < 0x1000_0000 && |footer| == 10
    ensures WithoutTag(Tagged(version, revision, flags, payload) + footer + audio) == footer + audio
  {
    TagRemoved(version, revision, flags, payload, footer + audio);
    hide WithoutTag, Tagged;
    assert Tagged(version, revision, flags, payload) + footer + audio
        == Tagged(version, revision, flags, payload) + (footer + audio);
  }

  /** Nothing else is touched: a file stays as it is exactly if it does not begin with "ID3", or has no more
      than a header, or no audio behind the tag. */
  lemma KeptIff(input: seq<Byte>)
    ensures WithoutTag(input) == input
            <==> |input| <= 10 || input[0] != 'I' as nat || input[1] != 'D' as nat || input[2] != '3' as nat
                 || |input| <= 10 + TagSize(input[6], input[7], input[8], input[9])
  {
    if HasTag(input) && 10 + TagSize(input[6], input[7], input[8], input[9]) < |input| {
      assert |WithoutTag(input)| < |input|;
    }
  }

  // ---- The size field, bit by bit ----

  /** Bitwise or. */
  function Or(a: nat, b: nat): nat
    decreases a + b
  {
    if a == 0 then b else if b == 0 then a
    else 2 * Or(a / 2, b / 2) + if a % 2 == 1 || b % 2 == 1 then 1 else 0
  }

  lemma HalfOr(a: nat, b: nat)
    ensures Or(2 * a, b) == 2 * Or(a, b / 2) + b % 2
  {}

  /** Or-ing into the low seven bits of a shifted number: what reaches beyond them is or-ed with it. */
  lemma OrLow(a: nat, b: nat)
    ensures Or(128 * a, b) == 128 * Or(a, b / 128) + b % 128
  {
    hide Or;
    var b1, b2, b3, b4, b5, b6 := b / 2, b / 4, b / 8, b / 16, b / 32, b / 64;
    HalfOr(64 * a, b);
    HalfOr(32 * a, b1);
    HalfOr(16 * a, b2);
    HalfOr(8 * a, b3);
    HalfOr(4 * a, b4);
    HalfOr(2 * a, b5);
    HalfOr(a, b6);
    Halved(b);
  }

  lemma Halved(b: nat)
    ensures b / 2 / 2 == b / 4 && b / 4 / 2 == b / 8 && b / 8 / 2 == b / 16 && b / 16 / 2 == b / 32
    ensures b / 32 / 2 == b / 64 && b / 64 / 2 == b / 128
    ensures b % 128 == b % 2 + 2 * (b / 2 % 2) + 4 * (b / 4 % 2) + 8 * (b / 8 % 2) + 16 * (b / 16 % 2)
                       + 32 * (b / 32 % 2) + 64 * (b / 64 % 2)
  {}

  lemma OrShifted(a: nat, b: nat)
    ensures Or(128 * a, 128 * b) == 128 * Or(a, b)
  {
    hide Or;
    OrLow(a, 128 * b);
  }

  lemma OverlappedDigit(h: nat, b: Byte, bit: nat)
    ensures Overlapped(128 * h + b % 128, bit) == 128 * h + Overlapped(b, bit) % 128
  {
    var d := b % 128;
    OverlappedShifted(h, d, bit);
    OverlappedShifted(b / 128, d, bit);
    assert b == 128 * (b / 128) + d;
    assert Overlapped(d, bit) < 128;
  }

  lemma OverlappedShifted(h: nat, d: nat, bit: nat)
    ensures Overlapped(128 * h + d, bit) == 128 * h + Overlapped(d, bit)
  {
    assert (128 * h + d) % 2 == d % 2;
  }

  /** The size is the four bytes shifted by 21, 14, 7 and 0 bits, or-ed, whatever their high bits. */
  lemma TagSizeIs(b6: Byte, b7: Byte, b8: Byte, b9: Byte)
    ensures TagSize(b6, b7, b8, b9) == Or(Or(Or(b6 * 0x20_0000, b7 * 0x4000), b8 * 128), b9)
  {
    hide Or, Overlapped;
    var y := Or(128 * b6, b7);
    var x := Or(128 * y, b8);
    OrShifted(128 * (128 * b6), 128 * b7);
    OrShifted(128 * b6, b7);
    OrShifted(128 * y, b8);
    OrLow(b6, b7);
    OrLow(y, b8);
    OrLow(x, b9);
    OrBit(b6, b7 / 128);
    OrBit(y, b8 / 128);
    OrBit(x, b9 / 128);
    var o6 := Overlapped(b6, b7 / 128);
    OverlappedDigit(o6, b7, b8 / 128);
    var o67 := Or(y, b8 / 128);
    OverlappedDigit(o67, b8, b9 / 128);
  }

  /** Or-ing one bit in. */
  lemma OrBit(a: nat, bit: nat)
    requires bit <= 1
    ensures Or(a, bit) == Overlapped(a, bit)
  {
    if a > 0 && bit == 1 {
      assert Or(a / 2, 0) == a / 2;
    }
  }

  lemma SizeDigits(n: nat)
    requires n < 0x1000_0000
    ensures n == n / 0x20_0000 * 0x20_0000 + n / 0x4000 % 128 * 0x4000 + n / 128 % 128 * 128 + n % 128
  {
    assert n / 128 / 128 == n / 0x4000 && n / 0x4000 / 128 == n / 0x20_0000;
  }
}
