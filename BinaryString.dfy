/** "Binary strings": JavaScript strings whose every character has a code
    below 256, one character per byte. The two loops that convert between
    bytes and such strings (`String.fromCharCode(bytes[i])` and
    `bytes[i] = s.charCodeAt(i)`) are written here once: the live voice
    chat and the project preview page both use them. */
module BinaryString {

  /** One element of a `Uint8Array`. */
  type byte = x: int | 0 <= x < 256

  /** Every character's code fits in one byte. */
  predicate IsBinary(s: string)
  {
    forall i :: 0 <= i < |s| ==> s[i] as int < 256
  }

  function CharOfByte(b: byte): char
  {
    b as char
  }

  function ByteOfChar(c: char): byte
    requires c as int < 256
  {
    c as int
  }

  /** The binary string with one character per byte, in order. */
  function FromBytes(b: seq<byte>): (s: string)
    ensures |s| == |b| && IsBinary(s)
    ensures forall i :: 0 <= i < |b| ==> s[i] as int == b[i]
  {
    if b == [] then [] else [CharOfByte(b[0])] + FromBytes(b[1..])
  }

  /** The bytes named by the characters of a binary string, in order. */
  function ToBytes(s: string): (b: seq<byte>)
    requires IsBinary(s)
    ensures |b| == |s|
    ensures forall i :: 0 <= i < |s| ==> b[i] == s[i] as int
  {
    if s == [] then [] else [ByteOfChar(s[0])] + ToBytes(s[1..])
  }

  /** Bytes survive the trip through a binary string. */
  lemma BytesRoundTrip(b: seq<byte>)
    ensures ToBytes(FromBytes(b)) == b
  {
    var back := ToBytes(FromBytes(b));
    assert forall i :: 0 <= i < |b| ==> back[i] == b[i];
  }

  /** A binary string survives the trip through bytes. */
  lemma CharsRoundTrip(s: string)
    requires IsBinary(s)
    ensures FromBytes(ToBytes(s)) == s
  {
    var back := FromBytes(ToBytes(s));
    assert forall i :: 0 <= i < |s| ==> back[i] as int == s[i] as int;
  }

  /** The encoding loop: `binary += String.fromCharCode(bytes[i])` for
      each index in turn. */
  method FromByteArray(bytes: array<byte>) returns (binary: string)
    ensures binary == FromBytes(bytes[..])
  {
    binary := "";
    var len := bytes.Length;
    for i := 0 to len
      invariant |binary| == i
      invariant forall k :: 0 <= k < i ==> binary[k] as int == bytes[k]
    {
      binary := binary + [CharOfByte(bytes[i])];
    }
    var spec := FromBytes(bytes[..]);
    assert forall k :: 0 <= k < len ==> binary[k] == spec[k];
  }

  /** The decoding loop: a fresh byte array of the string's length, filled
      by `bytes[i] = s.charCodeAt(i)`. */
  method ToByteArray(s: string) returns (bytes: array<byte>)
    requires IsBinary(s)
    ensures fresh(bytes) && bytes[..] == ToBytes(s)
  {
    var len := |s|;
    bytes := new byte[len];
    for i := 0 to len
      invariant forall k :: 0 <= k < i ==> bytes[k] == s[k] as int
    {
      bytes[i] := ByteOfChar(s[i]);
    }
    var spec := ToBytes(s);
    assert forall k :: 0 <= k < len ==> bytes[k] == spec[k];
  }
}
