/**
 * Byte-level framing of a Compressed Data packet body (section 5.6 of
 * RFC 4880) and of the ZLIB stream inside it (section 2.2 of RFC 1950).
 */
module Framing {
  import opened Base
  import opened Algorithms

  /**
   * Splits a packet body into its algorithm octet and the compressed data
   * that makes up the remainder. Fails when the first octet is missing or is
   * not a known code.
   */
  function SplitHeader(bytes: seq<byte>): (r: Option<(Alg, seq<byte>)>)
    ensures r.Some? <==> |bytes| > 0 && bytes[0] < 4
    ensures r.Some? ==> r.value.0 != Unrecognised && CodeOf(r.value.0) == Some(bytes[0])
    ensures r.Some? ==> bytes == [bytes[0]] + r.value.1
  {
    if |bytes| == 0 then None
    else match AlgorithmFromCode(bytes[0])
      case None => None
      case Some(a) => Some((a, bytes[1..]))
  }

  /** Prefixes compressed data with the algorithm's octet; there is no octet for an unrecognised algorithm. */
  function JoinHeader(a: Alg, body: seq<byte>): (r: Option<seq<byte>>)
    ensures r.Some? <==> a != Unrecognised
    ensures r.Some? ==> |r.value| == |body| + 1 && r.value[1..] == body
    ensures r.Some? ==> SplitHeader(r.value) == Some((a, body))
  {
    match CodeOf(a)
    case None => None
    case Some(c) =>
      var out := [c] + body;
      assert out[1..] == body;
      Some(out)
  }

  /** Splitting and then joining again gives back the very same octets. */
  lemma JoinSplit(bytes: seq<byte>)
    requires SplitHeader(bytes).Some?
    ensures JoinHeader(SplitHeader(bytes).value.0, SplitHeader(bytes).value.1) == Some(bytes)
  {
  }

  /**
   * The compression method of a ZLIB stream: bits 0-3 of its first octet
   * (CMF). An empty stream has no first octet, and the source's
   * `charCodeAt(0) % 0x10` then yields NaN, which is never 8.
   */
  function CompressionMethod(body: seq<byte>): (cm: Option<int>)
    ensures cm.Some? <==> |body| > 0
    ensures cm.Some? ==> 0 <= cm.value < 16 && (body[0] as int - cm.value) % 16 == 0
  {
    if |body| == 0 then None else Some(body[0] as int % 16)
  }

  /** The method number that stands for DEFLATE in section 2.2 of RFC 1950. */
  const DeflateMethod := 8

  /** The length of the ADLER32 trailer of a ZLIB stream. */
  const ChecksumLength := 4

  /**
   * A ZLIB stream without its 4-octet ADLER32 trailer. Like JavaScript's
   * `substring(0, length - 4)`, a negative end is clamped to 0, so a stream
   * shorter than 4 octets leaves nothing.
   */
  function WithoutChecksum(body: seq<byte>): (r: seq<byte>)
    ensures |body| >= ChecksumLength ==> |r| == |body| - ChecksumLength
    ensures |body| < ChecksumLength ==> r == []
    ensures r <= body
  {
    if |body| >= ChecksumLength then body[..|body| - ChecksumLength] else []
  }
}
