/**
 * The compression algorithm identifiers of a Compressed Data packet and their
 * one-octet wire codes (section 9.3 of RFC 4880): 0 uncompressed, 1 ZIP
 * (raw DEFLATE, RFC 1951), 2 ZLIB (RFC 1950), 3 BZip2.
 */
module Algorithms {
  import opened Base

  /**
   * The value of a packet's `algorithm` field. The four named values are the
   * ones the registry knows; `Unrecognised` is any other value a caller may
   * have assigned to the field, the one the `default:` branches handle.
   */
  datatype Alg = Uncompressed | Zip | Zlib | Bzip2 | Unrecognised

  /** The registry lookup from wire code to algorithm; codes outside 0..3 are rejected. */
  function AlgorithmFromCode(c: byte): (a: Option<Alg>)
    ensures a.Some? <==> c < 4
    ensures a.Some? ==> a.value != Unrecognised
    ensures a == Some(Uncompressed) <==> c == 0
  {
    if c == 0 then Some(Uncompressed)
    else if c == 1 then Some(Zip)
    else if c == 2 then Some(Zlib)
    else if c == 3 then Some(Bzip2)
    else None
  }

  /** The registry lookup from algorithm to wire code; only the four known values have one. */
  function CodeOf(a: Alg): (c: Option<byte>)
    ensures c.Some? <==> a != Unrecognised
    ensures c.Some? ==> c.value < 4 && AlgorithmFromCode(c.value) == Some(a)
  {
    match a
    case Uncompressed => Some(0)
    case Zip => Some(1)
    case Zlib => Some(2)
    case Bzip2 => Some(3)
    case Unrecognised => None
  }

  /** The two lookups are inverse on the known codes. */
  lemma CodeRoundTrip(c: byte)
    requires c < 4
    ensures AlgorithmFromCode(c).Some? && CodeOf(AlgorithmFromCode(c).value) == Some(c)
  {
  }
}
