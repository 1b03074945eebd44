/** The base64 encoding of section 4 of RFC 4648, as the browser's `btoa`
    produces it, and the "forgiving-base64 decode" that the browser's
    `atob` applies (it drops ASCII whitespace, accepts missing padding and
    ignores the unused low bits of the last character). */
module Base64 {
  import opened Wrappers
  import BinaryString

  type byte = BinaryString.byte

  /** A 6-bit group: the index of one character of the alphabet. */
  type sextet = x: int | 0 <= x < 64

  /** The base64 alphabet of Table 1 of RFC 4648: A-Z, a-z, 0-9, '+', '/'. */
  function CharOf(v: sextet): char
  {
    if v < 26 then ('A' as int + v) as char
    else if v < 52 then ('a' as int + v - 26) as char
    else if v < 62 then ('0' as int + v - 52) as char
    else if v == 62 then '+'
    else '/'
  }

  predicate IsAlphabetChar(c: char)
  {
    ('A' <= c <= 'Z') || ('a' <= c <= 'z') || ('0' <= c <= '9') || c == '+' || c == '/'
  }

  /** The value of an alphabet character. */
  function ValueOf(c: char): sextet
    requires IsAlphabetChar(c)
  {
    if 'A' <= c <= 'Z' then c as int - 'A' as int
    else if 'a' <= c <= 'z' then c as int - 'a' as int + 26
    else if '0' <= c <= '9' then c as int - '0' as int + 52
    else if c == '+' then 62
    else 63
  }

  /** The alphabet is a bijection between sextets and its characters. */
  lemma CharOfValueOf(v: sextet)
    ensures IsAlphabetChar(CharOf(v)) && ValueOf(CharOf(v)) == v
  {
  }

  predicate AllAlphabet(s: string)
  {
    forall i :: 0 <= i < |s| ==> IsAlphabetChar(s[i])
  }

  /** One group of one to three bytes as two to four characters: the bytes
      are read as a 24-bit number (missing bytes count as zero) and cut into
      sextets from the most significant end; one character is emitted per
      sextet that holds at least one bit of input. */
  function EncodeGroup(b: seq<byte>): (q: string)
    requires 1 <= |b| <= 3
    ensures |q| == |b| + 1 && AllAlphabet(q)
  {
    var b0 := b[0];
    var b1 := if |b| > 1 then b[1] else 0;
    var b2 := if |b| > 2 then b[2] else 0;
    var q := [CharOf(b0 / 4), CharOf(b0 % 4 * 16 + b1 / 16),
              CharOf(b1 % 16 * 4 + b2 / 64), CharOf(b2 % 64)];
    q[..|b| + 1]
  }

  /** The inverse of `EncodeGroup`: two to four alphabet characters carry
      one to three bytes; bits of the last character beyond the last whole
      byte are dropped. */
  function DecodeGroup(q: string): (b: seq<byte>)
    requires 2 <= |q| <= 4 && AllAlphabet(q)
    ensures |b| == |q| - 1
  {
    var v0 := ValueOf(q[0]);
    var v1 := ValueOf(q[1]);
    var v2 := if |q| > 2 then ValueOf(q[2]) else 0;
    var v3 := if |q| > 3 then ValueOf(q[3]) else 0;
    var b := [v0 * 4 + v1 / 16, v1 % 16 * 16 + v2 / 4, v2 % 4 * 64 + v3];
    b[..|q| - 1]
  }

  lemma GroupRoundTrip(b: seq<byte>)
    requires 1 <= |b| <= 3
    ensures DecodeGroup(EncodeGroup(b)) == b
  {
    if |b| == 1 {
      assert b == [b[0]];
      OneByteRoundTrip(b[0]);
    } else if |b| == 2 {
      assert b == [b[0], b[1]];
      TwoBytesRoundTrip(b[0], b[1]);
    } else {
      assert b == [b[0], b[1], b[2]];
      ThreeBytesRoundTrip(b[0], b[1], b[2]);
    }
  }

  lemma OneByteRoundTrip(b0: byte)
    ensures DecodeGroup(EncodeGroup([b0])) == [b0]
  {
    var v0, v1 := b0 / 4, b0 % 4 * 16;
    var q := [CharOf(v0), CharOf(v1), CharOf(0), CharOf(0)];
    assert EncodeGroup([b0]) == q[..2];
    DecodeSextets(v0, v1, 0, 0, 2);
    SextetsRejoin(b0, 0, 0);
    assert DecodeGroup(q[..2]) == [v0 * 4 + v1 / 16, v1 % 16 * 16, 0][..1];
  }

  lemma TwoBytesRoundTrip(b0: byte, b1: byte)
    ensures DecodeGroup(EncodeGroup([b0, b1])) == [b0, b1]
  {
    var v0, v1, v2 := b0 / 4, b0 % 4 * 16 + b1 / 16, b1 % 16 * 4;
    var q := [CharOf(v0), CharOf(v1), CharOf(v2), CharOf(0)];
    assert EncodeGroup([b0, b1]) == q[..3];
    DecodeSextets(v0, v1, v2, 0, 3);
    SextetsRejoin(b0, b1, 0);
    assert DecodeGroup(q[..3]) == [v0 * 4 + v1 / 16, v1 % 16 * 16 + v2 / 4, v2 % 4 * 64][..2];
  }

  lemma ThreeBytesRoundTrip(b0: byte, b1: byte, b2: byte)
    ensures DecodeGroup(EncodeGroup([b0, b1, b2])) == [b0, b1, b2]
  {
    var v0, v1, v2, v3 := b0 / 4, b0 % 4 * 16 + b1 / 16, b1 % 16 * 4 + b2 / 64, b2 % 64;
    var q := [CharOf(v0), CharOf(v1), CharOf(v2), CharOf(v3)];
    assert EncodeGroup([b0, b1, b2]) == q[..4];
    DecodeSextets(v0, v1, v2, v3, 4);
    SextetsRejoin(b0, b1, b2);
    assert DecodeGroup(q[..4]) == [v0 * 4 + v1 / 16, v1 % 16 * 16 + v2 / 4, v2 % 4 * 64 + v3][..3];
  }

  /** Decoding the characters of four sextets joins the sextets. */
  lemma DecodeSextets(v0: sextet, v1: sextet, v2: sextet, v3: sextet, n: int)
    requires 2 <= n <= 4
    ensures var q := [CharOf(v0), CharOf(v1), CharOf(v2), CharOf(v3)][..n];
      AllAlphabet(q) && DecodeGroup(q) == [v0 * 4 + v1 / 16, v1 % 16 * 16 + v2 / 4, v2 % 4 * 64 + v3][..n - 1]
  {
    CharOfValueOf(v0);
    CharOfValueOf(v1);
    CharOfValueOf(v2);
    CharOfValueOf(v3);
  }

  /** The four sextets cut from three bytes give the bytes back. */
  lemma SextetsRejoin(b0: byte, b1: byte, b2: byte)
    ensures var v0, v1, v2, v3 := b0 / 4, b0 % 4 * 16 + b1 / 16, b1 % 16 * 4 + b2 / 64, b2 % 64;
      && v0 * 4 + v1 / 16 == b0
      && v1 % 16 * 16 + v2 / 4 == b1
      && v2 % 4 * 64 + v3 == b2
  {
    var v1, v2 := b0 % 4 * 16 + b1 / 16, b1 % 16 * 4 + b2 / 64;
    assert v1 / 16 == b0 % 4 && v1 % 16 == b1 / 16;
    assert v2 / 4 == b1 % 16 && v2 % 4 == b2 / 64;
  }

  /** The encoding without the trailing `=` padding. */
  function EncodeNoPad(b: seq<byte>): (s: string)
    ensures |s| % 4 == (if |b| % 3 == 0 then 0 else |b| % 3 + 1)
    ensures |s| == 0 <==> |b| == 0
    ensures AllAlphabet(s)
    decreases |b|
  {
    if |b| == 0 then ""
    else if |b| <= 3 then EncodeGroup(b)
    else
      var rest := EncodeNoPad(b[3..]);
      assert |b[3..]| % 3 == |b| % 3;
      assert (4 + |rest|) % 4 == |rest| % 4;
      EncodeGroup(b[..3]) + rest
  }

  /** The `=` characters that complete the last group to four characters. */
  function Padding(n: nat): string
  {
    if n % 3 == 1 then "==" else if n % 3 == 2 then "=" else ""
  }

  /** The base64 encoding of `b` (section 4 of RFC 4648, padded). */
  function Encode(b: seq<byte>): (s: string)
    ensures |s| % 4 == 0
  {
    EncodeNoPad(b) + Padding(|b|)
  }

  /** Decoding of an unpadded run of alphabet characters, four at a time. */
  function DecodeNoPad(s: string): (b: seq<byte>)
    requires AllAlphabet(s) && |s| % 4 != 1
    decreases |s|
  {
    if |s| == 0 then []
    else if |s| <= 4 then DecodeGroup(s)
    else DecodeGroup(s[..4]) + DecodeNoPad(s[4..])
  }

  /** ASCII whitespace as the forgiving decoder strips it: TAB, LF, FF, CR
      and SPACE. */
  predicate IsAsciiWhitespace(c: char)
  {
    c == '\t' || c == '\n' || c == '\U{C}' || c == '\r' || c == ' '
  }

  function RemoveAsciiWhitespace(s: string): (r: string)
    ensures |r| <= |s|
  {
    if s == [] then []
    else if IsAsciiWhitespace(s[0]) then RemoveAsciiWhitespace(s[1..])
    else [s[0]] + RemoveAsciiWhitespace(s[1..])
  }

  /** A length that divides by four loses one or two trailing `=`. */
  function StripPadding(t: string): string
  {
    if |t| % 4 == 0 && |t| >= 2 && t[|t| - 2..] == "==" then t[..|t| - 2]
    else if |t| % 4 == 0 && |t| >= 1 && t[|t| - 1] == '=' then t[..|t| - 1]
    else t
  }

  /** `atob`'s decoder: `None` is the `InvalidCharacterError` it throws. */
  function Decode(s: string): (r: Option<seq<byte>>)
  {
    var t := StripPadding(RemoveAsciiWhitespace(s));
    if |t| % 4 == 1 || !AllAlphabet(t) then None
    else Some(DecodeNoPad(t))
  }

  lemma {:induction false} NoPadRoundTrip(b: seq<byte>)
    ensures DecodeNoPad(EncodeNoPad(b)) == b
    decreases |b|
  {
    if |b| == 0 {
    } else if |b| <= 3 {
      GroupRoundTrip(b);
    } else {
      var s := EncodeNoPad(b);
      assert s == EncodeGroup(b[..3]) + EncodeNoPad(b[3..]);
      assert s[..4] == EncodeGroup(b[..3]);
      assert s[4..] == EncodeNoPad(b[3..]);
      GroupRoundTrip(b[..3]);
      NoPadRoundTrip(b[3..]);
      assert b == b[..3] + b[3..];
    }
  }

  lemma {:induction false} AlphabetHasNoWhitespace(s: string)
    requires forall i :: 0 <= i < |s| ==> IsAlphabetChar(s[i]) || s[i] == '='
    ensures RemoveAsciiWhitespace(s) == s
  {
    if s != [] {
      AlphabetHasNoWhitespace(s[1..]);
    }
  }

  lemma StripPaddingOfEncode(b: seq<byte>)
    ensures StripPadding(Encode(b)) == EncodeNoPad(b)
  {
    var e := EncodeNoPad(b);
    var s := Encode(b);
    var r := |b| % 3;
    if r == 1 {
      assert s == e + "==";
      assert s[|s| - 2..] == "==";
      assert s[..|s| - 2] == e;
    } else if r == 2 {
      assert s == e + "=";
      assert s[|s| - 2] == e[|e| - 1];
      assert IsAlphabetChar(s[|s| - 2]);
      assert s[..|s| - 1] == e;
    } else {
      assert s == e;
      if e != [] {
        assert IsAlphabetChar(s[|s| - 1]);
      }
    }
  }

  /** Decoding what `Encode` produced gives back the original bytes. */
  lemma RoundTrip(b: seq<byte>)
    ensures Decode(Encode(b)) == Some(b)
  {
    var s := Encode(b);
    var e := EncodeNoPad(b);
    assert s == e + Padding(|b|);
    assert forall i :: 0 <= i < |s| ==> IsAlphabetChar(s[i]) || s[i] == '=' by {
      forall i | 0 <= i < |s| ensures IsAlphabetChar(s[i]) || s[i] == '=' {
        if i < |e| {
          assert s[i] == e[i];
        }
      }
    }
    AlphabetHasNoWhitespace(s);
    StripPaddingOfEncode(b);
    var t := StripPadding(RemoveAsciiWhitespace(s));
    assert t == e;
    assert |t| % 4 != 1;
    NoPadRoundTrip(b);
  }

  lemma {:induction false} EncodedLength(b: seq<byte>)
    ensures |Encode(b)| == 4 * ((|b| + 2) / 3)
    decreases |b|
  {
    var n := |b|;
    if n > 3 {
      EncodedLength(b[3..]);
      assert |EncodeNoPad(b)| == 4 + |EncodeNoPad(b[3..])|;
      GroupCount(n);
      assert Padding(n) == Padding(n - 3);
    } else if n == 0 {
    } else {
      assert |EncodeNoPad(b)| == n + 1;
      assert (n + 2) / 3 == 1;
    }
  }

  /** One more group of three bytes is one more started group. */
  lemma GroupCount(n: int)
    requires n > 3
    ensures n % 3 == (n - 3) % 3 && (n + 2) / 3 == (n - 3 + 2) / 3 + 1
  {
  }

  /** The encoding is four characters per started group of three bytes,
      uses only the alphabet and `=`, and `=` only as padding. */
  lemma EncodeShape(b: seq<byte>)
    ensures var s := Encode(b);
      && |s| == 4 * ((|b| + 2) / 3)
      && (forall i :: 0 <= i < |s| ==> (IsAlphabetChar(s[i]) <==> s[i] != '='))
      && (forall i :: 0 <= i < |s| - |Padding(|b|)| ==> IsAlphabetChar(s[i]))
  {
    EncodedLength(b);
    var s := Encode(b);
    var e := EncodeNoPad(b);
    forall i | 0 <= i < |s| ensures IsAlphabetChar(s[i]) <==> s[i] != '=' {
      if i < |e| {
        assert s[i] == e[i];
      }
    }
  }

  /** `btoa(s)`: `None` is the `InvalidCharacterError` thrown for a
      character above U+00FF. */
  function Btoa(s: string): (r: Option<string>)
    ensures r.Some? <==> BinaryString.IsBinary(s)
  {
    if BinaryString.IsBinary(s) then Some(Encode(BinaryString.ToBytes(s))) else None
  }

  /** `atob(s)`: the decoded bytes as a binary string, or `None`. */
  function Atob(s: string): (r: Option<string>)
    ensures r.Some? <==> Decode(s).Some?
    ensures r.Some? ==> BinaryString.IsBinary(r.value)
    ensures r.Some? ==> BinaryString.ToBytes(r.value) == Decode(s).value
  {
    match Decode(s)
    case None => None
    case Some(b) =>
      BinaryString.BytesRoundTrip(b);
      Some(BinaryString.FromBytes(b))
  }
}
