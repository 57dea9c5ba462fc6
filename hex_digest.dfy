/**
 * The content digest of a sample: SHA-256 over its bytes, rendered as
 * lowercase, zero-padded hexadecimal.
 */
module HexDigest {
  import opened Basics

  newtype byte = b: int | 0 <= b < 256

  /** A SHA-256 digest: 32 bytes. */
  type Digest = s: seq<byte> | |s| == 32 witness seq(32, _ => 0)

  predicate IsLowerHex(c: char)
  {
    '0' <= c <= '9' || 'a' <= c <= 'f'
  }

  predicate IsLowerHexString(s: string)
  {
    forall k :: 0 <= k < |s| ==> IsLowerHex(s[k])
  }

  function HexDigit(d: nat): (c: char)
    requires d < 16
    ensures IsLowerHex(c)
  {
    if d < 10 then ('0' as int + d) as char else ('a' as int + d - 10) as char
  }

  /** The upper four bits of a byte. */
  function HighNibble(b: byte): (d: nat)
    ensures d < 16
  {
    b as int / 16
  }

  /** The lower four bits of a byte; with the upper four they make the byte. */
  function LowNibble(b: byte): (d: nat)
    ensures d < 16
    ensures HighNibble(b) * 16 + d == b as int
  {
    b as int % 16
  }

  /**
   * `b.toString(16)` for a byte: lowercase base-16 digits without leading
   * zeros, so one digit below 16 and two from 16 on.
   */
  function ToBase16(b: byte): (r: string)
    ensures 1 <= |r| <= 2
  {
    if b < 16 then [HexDigit(b as int)] else [HexDigit(HighNibble(b)), HexDigit(LowNibble(b))]
  }

  /** `s.padStart(width, fill)` */
  function PadStart(s: string, width: nat, fill: char): (r: string)
    ensures |r| == if |s| >= width then |s| else width
    ensures r[|r| - |s|..] == s
    ensures forall k :: 0 <= k < |r| - |s| ==> r[k] == fill
  {
    if |s| >= width then s else seq(width - |s|, _ => fill) + s
  }

  /**
   * `b.toString(16).padStart(2, '0')`: exactly the high and the low nibble
   * of the byte as hex digits.
   */
  function ByteToHex(b: byte): (r: string)
    ensures r == [HexDigit(HighNibble(b)), HexDigit(LowNibble(b))]
    ensures |r| == 2 && IsLowerHexString(r)
  {
    assert b < 16 ==> HighNibble(b) == 0 && LowNibble(b) == b as int;
    PadStart(ToBase16(b), 2, '0')
  }

  /** `bufferToHex`: the bytes' hex pairs, joined without separator. */
  function BufferToHex(bytes: seq<byte>): (r: string)
    ensures |r| == 2 * |bytes|
    ensures IsLowerHexString(r)
  {
    if bytes == [] then ""
    else
      var head, rest := ByteToHex(bytes[0]), BufferToHex(bytes[1..]);
      assert forall k :: 0 <= k < |rest| ==> (head + rest)[k + 2] == rest[k];
      assert forall k :: 0 <= k < 2 ==> (head + rest)[k] == head[k];
      head + rest
  }

  /** Byte `i` is rendered at positions 2i and 2i+1. */
  lemma {:induction false} BufferToHexAt(bytes: seq<byte>, i: nat)
    requires i < |bytes|
    ensures BufferToHex(bytes)[2 * i..2 * i + 2] == ByteToHex(bytes[i])
  {
    var head, rest := ByteToHex(bytes[0]), BufferToHex(bytes[1..]);
    assert BufferToHex(bytes) == head + rest;
    if i > 0 {
      BufferToHexAt(bytes[1..], i - 1);
      SliceAfterPrefix(head, rest, 2 * i, 2 * i + 2);
    }
  }

  function HexValue(c: char): Option<nat>
  {
    if '0' <= c <= '9' then Some(c as int - '0' as int)
    else if 'a' <= c <= 'f' then Some(c as int - 'a' as int + 10)
    else None
  }

  /** Reads a lowercase hex string back two characters at a time. */
  function DecodeHex(s: string): Option<seq<byte>>
    decreases |s|
  {
    if s == [] then Some([])
    else if |s| == 1 then None
    else
      match (HexValue(s[0]), HexValue(s[1]), DecodeHex(s[2..]))
      case (Some(hi), Some(lo), Some(rest)) => Some([(hi * 16 + lo) as byte] + rest)
      case _ => None
  }

  lemma {:induction false} HexDigitValue(d: nat)
    requires d < 16
    ensures HexValue(HexDigit(d)) == Some(d)
  {
  }

  lemma {:induction false} DecodeHexPair(hi: nat, lo: nat, rest: string)
    requires hi < 16 && lo < 16
    ensures DecodeHex([HexDigit(hi), HexDigit(lo)] + rest) ==
      if DecodeHex(rest).Some? then Some([(hi * 16 + lo) as byte] + DecodeHex(rest).value) else None
  {
    var s := [HexDigit(hi), HexDigit(lo)] + rest;
    assert s[2..] == rest;
    HexDigitValue(hi);
    HexDigitValue(lo);
  }

  /** Decoding the hex text gives back the bytes. */
  lemma {:induction false} BufferToHexRoundTrip(bytes: seq<byte>)
    ensures DecodeHex(BufferToHex(bytes)) == Some(bytes)
  {
    if bytes != [] {
      var hi, lo := HighNibble(bytes[0]), LowNibble(bytes[0]);
      var rest := BufferToHex(bytes[1..]);
      assert BufferToHex(bytes) == [HexDigit(hi), HexDigit(lo)] + rest;
      DecodeHexPair(hi, lo, rest);
      BufferToHexRoundTrip(bytes[1..]);
      assert [(hi * 16 + lo) as byte] + bytes[1..] == bytes;
    }
  }

  /** Different byte sequences never render to the same text. */
  lemma {:induction false} BufferToHexInjective(a: seq<byte>, b: seq<byte>)
    requires BufferToHex(a) == BufferToHex(b)
    ensures a == b
  {
    BufferToHexRoundTrip(a);
    BufferToHexRoundTrip(b);
  }

  /**
   * `calculateFileHash`: the SHA-256 digest of the content (the host's
   * `crypto.subtle.digest`, a parameter here) in hex: 64 lowercase hex digits.
   */
  function CalculateFileHash(content: seq<byte>, sha256: seq<byte> -> Digest): (r: string)
    ensures |r| == 64 && IsLowerHexString(r)
    ensures DecodeHex(r) == Some(sha256(content))
  {
    BufferToHexRoundTrip(sha256(content));
    BufferToHex(sha256(content))
  }
}
