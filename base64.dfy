/**
 * The browser's `btoa` and `atob`, which the session hooks wrap around their
 * byte buffers. `btoa` is base64 encoding as in section 4 of RFC 4648 (standard
 * alphabet, `=` padding) applied to the character codes of a binary string;
 * `atob` is the HTML standard's "forgiving-base64 decode", which skips ASCII
 * whitespace and accepts a missing padding.
 */
module Base64 {
  import opened Prelude
  import Seqs

  /** A character of the RFC 4648 base64 alphabet (padding not included). */
  predicate IsAlphabet(c: char) {
    ('A' <= c <= 'Z') || ('a' <= c <= 'z') || ('0' <= c <= '9') || c == '+' || c == '/'
  }

  /**
   * The 6-bit value a character of the alphabet stands for. Decoding rejects
   * every other character before it looks at values; they map to 63.
   */
  function ValueOf(c: char): (v: int)
    ensures 0 <= v < 64
  {
    if 'A' <= c <= 'Z' then c as int - 'A' as int
    else if 'a' <= c <= 'z' then c as int - 'a' as int + 26
    else if '0' <= c <= '9' then c as int - '0' as int + 52
    else if c == '+' then 62
    else 63
  }

  /** The character of the alphabet for a 6-bit value; `ValueOf` undoes it. */
  function Sextet(v: int): (c: char)
    requires 0 <= v < 64
    ensures IsAlphabet(c) && ValueOf(c) == v
  {
    if v < 26 then ('A' as int + v) as char
    else if v < 52 then ('a' as int + v - 26) as char
    else if v < 62 then ('0' as int + v - 52) as char
    else if v == 62 then '+'
    else '/'
  }

  /** Three bytes (24 bits) as four characters, most significant bits first. */
  function EncodeGroup(b0: Byte, b1: Byte, b2: Byte): string {
    [Sextet(b0 / 4), Sextet((b0 % 4) * 16 + b1 / 16), Sextet((b1 % 16) * 4 + b2 / 64), Sextet(b2 % 64)]
  }

  /** Four characters per group of three bytes; a final one or two bytes give two or three characters. */
  function UnpaddedLength(n: nat): nat {
    if n >= 3 then 4 + UnpaddedLength(n - 3) else if n == 0 then 0 else n + 1
  }

  /** The encoding without its `=` padding: a final group of one or two bytes gives two or three characters. */
  function EncodeUnpadded(b: seq<Byte>): (r: string)
    ensures |r| == UnpaddedLength(|b|)
    ensures forall i :: 0 <= i < |r| ==> IsAlphabet(r[i])
    decreases |b|
  {
    if |b| >= 3 then EncodeGroup(b[0], b[1], b[2]) + EncodeUnpadded(b[3..])
    else if |b| == 2 then [Sextet(b[0] / 4), Sextet((b[0] % 4) * 16 + b[1] / 16), Sextet((b[1] % 16) * 4)]
    else if |b| == 1 then [Sextet(b[0] / 4), Sextet((b[0] % 4) * 16)]
    else []
  }

  /** The padding that completes the last group of four characters. */
  function Padding(n: nat): string {
    if n % 3 == 1 then "==" else if n % 3 == 2 then "=" else ""
  }

  /**
   * The unpadded length never leaves a remainder of 1 modulo 4, is at least two
   * when a partial group is left, and the padding completes it to whole groups of four.
   */
  lemma {:induction false} UnpaddedLengthFacts(n: nat)
    ensures UnpaddedLength(n) % 4 != 1
    ensures n % 3 != 0 ==> UnpaddedLength(n) >= 2
    ensures UnpaddedLength(n) + |Padding(n)| == 4 * ((n + 2) / 3)
    ensures (UnpaddedLength(n) + |Padding(n)|) % 4 == 0
    decreases n
  {
    if n >= 3 {
      UnpaddedLengthFacts(n - 3);
      assert UnpaddedLength(n) == 4 + UnpaddedLength(n - 3);
      assert |Padding(n)| == |Padding(n - 3)| by {
        assert n % 3 == (n - 3) % 3;
      }
      assert (n + 2) / 3 == (n - 1) / 3 + 1;
    }
  }

  /** Base64 encoding (RFC 4648 section 4): four characters for every three bytes, the last group padded. */
  function Encode(b: seq<Byte>): (r: string)
    ensures |r| == 4 * ((|b| + 2) / 3)
    ensures forall i :: 0 <= i < |r| ==> IsAlphabet(r[i]) || r[i] == '='
  {
    UnpaddedLengthFacts(|b|);
    EncodeUnpadded(b) + Padding(|b|)
  }

  /** The whitespace that forgiving-base64 decoding skips (TAB, LF, FF, CR, SPACE). */
  predicate IsAsciiWhitespace(c: char) {
    c == '\t' || c == '\n' || c == '\U{000C}' || c == '\r' || c == ' '
  }

  predicate NotAsciiWhitespace(c: char) {
    !IsAsciiWhitespace(c)
  }

  /** Four 6-bit values (24 bits) as three bytes, most significant bits first. */
  function DecodeQuad(c0: int, c1: int, c2: int, c3: int): (r: seq<Byte>)
    requires 0 <= c0 < 64 && 0 <= c1 < 64 && 0 <= c2 < 64 && 0 <= c3 < 64
    ensures |r| == 3
  {
    [c0 * 4 + c1 / 16, (c1 % 16) * 16 + c2 / 4, (c2 % 4) * 64 + c3]
  }

  /**
   * Decodes characters of the alphabet, four to three bytes; a final two or
   * three give one or two bytes. A lone final character, which decoding
   * rejects beforehand, gives nothing.
   */
  function DecodeSextets(u: string): (r: seq<Byte>)
    ensures 4 * |r| <= 3 * |u|
    decreases |u|
  {
    if |u| >= 4 then
      DecodeQuad(ValueOf(u[0]), ValueOf(u[1]), ValueOf(u[2]), ValueOf(u[3])) + DecodeSextets(u[4..])
    else if |u| == 3 then
      var c0, c1, c2 := ValueOf(u[0]), ValueOf(u[1]), ValueOf(u[2]);
      [c0 * 4 + c1 / 16, (c1 % 16) * 16 + c2 / 4]
    else if |u| == 2 then
      [ValueOf(u[0]) * 4 + ValueOf(u[1]) / 16]
    else
      []
  }

  /** Removes one or two final `=` when the length is a multiple of four. */
  function StripPadding(t: string): (u: string)
    ensures |u| <= |t| && u == t[..|u|]
  {
    if |t| % 4 == 0 && |t| >= 2 && t[|t| - 2] == '=' && t[|t| - 1] == '=' then t[..|t| - 2]
    else if |t| % 4 == 0 && |t| >= 1 && t[|t| - 1] == '=' then t[..|t| - 1]
    else t
  }

  /** The input of forgiving-base64 decoding once whitespace and the final padding are removed. */
  function Unpadded(s: string): (u: string)
    ensures |u| <= |s|
  {
    StripPadding(Seqs.Filter(s, NotAsciiWhitespace))
  }

  /**
   * Forgiving-base64 decode: `None` (a thrown `InvalidCharacterError`) when the
   * unpadded length leaves a remainder of 1 modulo 4 or a character outside the
   * alphabet remains.
   */
  function Decode(s: string): (r: Option<seq<Byte>>)
    ensures r.Some? ==> |r.value| <= |s|
  {
    var u := Unpadded(s);
    if |u| % 4 == 1 || exists i :: 0 <= i < |u| && !IsAlphabet(u[i]) then None
    else Some(DecodeSextets(u))
  }

  /**
   * The bit arithmetic of one group: the sextets `c0`..`c3` that encoding splits
   * three bytes into are put back together into the same bytes.
   */
  lemma GroupArith(b0: Byte, b1: Byte, b2: Byte, c0: int, c1: int, c2: int, c3: int)
    requires c0 == b0 / 4 && c1 == (b0 % 4) * 16 + b1 / 16
    requires c2 == (b1 % 16) * 4 + b2 / 64 && c3 == b2 % 64
    ensures c0 * 4 + c1 / 16 == b0
    ensures (c1 % 16) * 16 + c2 / 4 == b1
    ensures (c2 % 4) * 64 + c3 == b2
  {
    assert c1 / 16 == b0 % 4;
    assert c1 % 16 == b1 / 16;
    assert c2 / 4 == b1 % 16;
    assert c2 % 4 == b2 / 64;
  }

  /** Decoding the four characters of a group in front of the rest. */
  lemma DecodeSextetsStep(g: string, rest: string)
    requires |g| == 4
    ensures DecodeSextets(g + rest) ==
      DecodeQuad(ValueOf(g[0]), ValueOf(g[1]), ValueOf(g[2]), ValueOf(g[3])) + DecodeSextets(rest)
  {
    var u := g + rest;
    assert u[4..] == rest;
    assert u[0] == g[0] && u[1] == g[1] && u[2] == g[2] && u[3] == g[3];
  }

  /** Decoding an encoded group of three bytes in front of the rest. */
  lemma DecodeGroupThenRest(b0: Byte, b1: Byte, b2: Byte, rest: string)
    ensures DecodeSextets(EncodeGroup(b0, b1, b2) + rest) == [b0, b1, b2] + DecodeSextets(rest)
  {
    var c0, c1, c2, c3 := b0 / 4, (b0 % 4) * 16 + b1 / 16, (b1 % 16) * 4 + b2 / 64, b2 % 64;
    var g := EncodeGroup(b0, b1, b2);
    DecodeSextetsStep(g, rest);
    assert ValueOf(g[0]) == c0 && ValueOf(g[1]) == c1 && ValueOf(g[2]) == c2 && ValueOf(g[3]) == c3;
    GroupArith(b0, b1, b2, c0, c1, c2, c3);
  }

  /** Decoding the unpadded encoding of a final group of two bytes. */
  lemma DecodeTailTwo(b0: Byte, b1: Byte)
    ensures DecodeSextets(EncodeUnpadded([b0, b1])) == [b0, b1]
  {
    var c0, c1, c2 := b0 / 4, (b0 % 4) * 16 + b1 / 16, (b1 % 16) * 4;
    var e := EncodeUnpadded([b0, b1]);
    assert e == [Sextet(c0), Sextet(c1), Sextet(c2)];
    assert ValueOf(e[0]) == c0 && ValueOf(e[1]) == c1 && ValueOf(e[2]) == c2;
    GroupArith(b0, b1, 0, c0, c1, c2, 0);
  }

  /** Decoding the unpadded encoding of a final single byte. */
  lemma DecodeTailOne(b0: Byte)
    ensures DecodeSextets(EncodeUnpadded([b0])) == [b0]
  {
    var c0, c1 := b0 / 4, (b0 % 4) * 16;
    var e := EncodeUnpadded([b0]);
    assert e == [Sextet(c0), Sextet(c1)];
    assert ValueOf(e[0]) == c0 && ValueOf(e[1]) == c1;
    GroupArith(b0, 0, 0, c0, c1, 0, 0);
  }

  /** The unpadded encoding of three or more bytes starts with the group of the first three. */
  lemma EncodeUnpaddedStep(b: seq<Byte>)
    requires |b| >= 3
    ensures EncodeUnpadded(b) == EncodeGroup(b[0], b[1], b[2]) + EncodeUnpadded(b[3..])
  {
  }

  /** Decoding the unpadded encoding gives back the bytes. */
  lemma {:induction false} DecodeEncodeUnpadded(b: seq<Byte>)
    ensures DecodeSextets(EncodeUnpadded(b)) == b
    decreases |b|
  {
    if |b| >= 3 {
      DecodeEncodeUnpadded(b[3..]);
      assert DecodeSextets(EncodeUnpadded(b)) == [b[0], b[1], b[2]] + b[3..] by {
        EncodeUnpaddedStep(b);
        DecodeGroupThenRest(b[0], b[1], b[2], EncodeUnpadded(b[3..]));
      }
      assert [b[0], b[1], b[2]] == b[..3];
      assert b[..3] + b[3..] == b;
    } else if |b| == 2 {
      DecodeTailTwo(b[0], b[1]);
      assert b == [b[0], b[1]];
    } else if |b| == 1 {
      DecodeTailOne(b[0]);
      assert b == [b[0]];
    }
  }

  /** Stripping the padding that follows characters of the alphabet leaves those characters. */
  lemma StripPaddingAfterAlphabet(e: string, n: nat)
    requires forall i :: 0 <= i < |e| ==> IsAlphabet(e[i])
    requires (|e| + |Padding(n)|) % 4 == 0
    requires n % 3 != 0 ==> |e| >= 2
    ensures StripPadding(e + Padding(n)) == e
  {
    var t := e + Padding(n);
    if n % 3 == 1 {
      assert t[..|t| - 2] == e;
    } else if n % 3 == 2 {
      assert t[|t| - 2] == e[|e| - 1];
      assert t[..|t| - 1] == e;
    } else if |e| > 0 {
      assert t == e;
      assert t[|t| - 1] == e[|e| - 1];
    }
  }

  /** The encoding holds no whitespace, so forgiving decoding's first step keeps it whole. */
  lemma EncodeHasNoWhitespace(b: seq<Byte>)
    ensures Seqs.Filter(Encode(b), NotAsciiWhitespace) == Encode(b)
  {
    var r := Encode(b);
    assert forall i :: 0 <= i < |r| ==> NotAsciiWhitespace(r[i]);
    Seqs.FilterKeepsAll(r, NotAsciiWhitespace);
  }

  /** The padding `Encode` adds is exactly what forgiving decoding removes. */
  lemma UnpaddedEncode(b: seq<Byte>)
    ensures Unpadded(Encode(b)) == EncodeUnpadded(b)
  {
    var e := EncodeUnpadded(b);
    assert Seqs.Filter(Encode(b), NotAsciiWhitespace) == e + Padding(|b|) by {
      EncodeHasNoWhitespace(b);
    }
    assert StripPadding(e + Padding(|b|)) == e by {
      UnpaddedLengthFacts(|b|);
      StripPaddingAfterAlphabet(e, |b|);
    }
  }

  /** `atob` undoes `btoa`'s encoding: every byte string survives the round trip. */
  lemma DecodeEncode(b: seq<Byte>)
    ensures Decode(Encode(b)) == Some(b)
  {
    UnpaddedEncode(b);
    UnpaddedLengthFacts(|b|);
    DecodeEncodeUnpadded(b);
  }

  /** A character that is neither in the alphabet, nor `=`, nor ASCII whitespace makes `atob` throw. */
  lemma DecodeRejectsForeign(s: string, i: int)
    requires 0 <= i < |s| && !IsAlphabet(s[i]) && s[i] != '=' && !IsAsciiWhitespace(s[i])
    ensures Decode(s) == None
  {
    var t := Seqs.Filter(s, NotAsciiWhitespace);
    var u := Unpadded(s);
    assert s[i] in t;
    var j :| 0 <= j < |t| && t[j] == s[i];
    assert j < |u| && u[j] == t[j];
  }

  /** A string whose characters all have codes below 256: the only input `btoa` accepts. */
  predicate IsBinaryString(s: string) {
    forall i :: 0 <= i < |s| ==> s[i] as int < 256
  }

  /** Bytes as the binary string with one character per byte (`String.fromCharCode`). */
  function BinaryString(b: seq<Byte>): (s: string)
    ensures |s| == |b| && IsBinaryString(s)
    ensures forall i :: 0 <= i < |b| ==> s[i] as int == b[i]
  {
    seq(|b|, i requires 0 <= i < |b| => b[i] as char)
  }

  /** The character codes of a binary string (`charCodeAt`). */
  function CharCodes(s: string): (b: seq<Byte>)
    requires IsBinaryString(s)
    ensures |b| == |s|
    ensures forall i :: 0 <= i < |s| ==> b[i] == s[i] as int
  {
    seq(|s|, i requires 0 <= i < |s| => s[i] as int)
  }

  /** `BinaryString` and `CharCodes` are inverse to each other. */
  lemma CharCodesBinaryString(b: seq<Byte>)
    ensures CharCodes(BinaryString(b)) == b
  {
  }

  /** `btoa`: `None` stands for the `InvalidCharacterError` thrown on a code above 255. */
  function Btoa(s: string): (r: Option<string>)
    ensures r.Some? <==> IsBinaryString(s)
    ensures r.Some? ==> |r.value| == 4 * ((|s| + 2) / 3)
  {
    if IsBinaryString(s) then Some(Encode(CharCodes(s))) else None
  }

  /** `atob`: `None` stands for the `InvalidCharacterError` it throws. */
  function Atob(s: string): (r: Option<string>)
    ensures r.Some? ==> IsBinaryString(r.value) && |r.value| <= |s|
  {
    match Decode(s)
    case Some(b) => Some(BinaryString(b))
    case None => None
  }

  /** `atob(btoa(s)) == s` for every binary string. */
  lemma AtobBtoa(s: string)
    requires IsBinaryString(s)
    ensures Btoa(s).Some? && Atob(Btoa(s).value) == Some(s)
  {
    var b := CharCodes(s);
    DecodeEncode(b);
    assert BinaryString(b) == s;
  }
}
